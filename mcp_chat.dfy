/**
 * The chat adapter (`MCPChatClient`). Despite its name it posts
 * OpenAI-style chat completions to `<base>/v1/chat/completions`; it does
 * not speak the Model Context Protocol's JSON-RPC.
 *
 * The HTTP exchange is an input: either the JSON document the server
 * answered with, or the kind of failure. Binding that document to the
 * response record is modelled over a small JSON value type. Every outcome
 * maps to exactly one assistant message; nothing is thrown.
 */
module McpChat {
  import opened Options
  import opened Strings

  const DefaultMaxTokens := 2048
  const DefaultTemperature: real := 0.7
  const NoChoicesReply := "No response from MCP server"
  const NoContentReply := "No response"

  /** `ChatRole`: a role is its name, and `ToString()` gives that name. */
  datatype ChatRole = ChatRole(value: string)

  const System := ChatRole("system")
  const User := ChatRole("user")
  const Assistant := ChatRole("assistant")

  datatype ChatMessage = ChatMessage(role: ChatRole, text: string)

  /** The optional settings a caller passes; `MaxOutputTokens` and `Temperature`. */
  datatype ChatOptions = ChatOptions(maxOutputTokens: Option<int>, temperature: Option<real>)

  datatype FinishReason = Stop | Length | Unknown

  /** The `CreatedAt` instant is the clock reading passed in. */
  datatype ChatResponse = ChatResponse(messages: seq<ChatMessage>, modelId: string, createdAt: string,
                                       finishReason: FinishReason)

  datatype ChatResponseUpdate = ChatResponseUpdate(text: string, role: ChatRole, modelId: string,
                                                   createdAt: string, finishReason: FinishReason)

  /** A constructed client: its normalised base URL and model id, which also form its metadata. */
  datatype Client = Client(baseUrl: string, modelId: string)

  datatype ConstructionError = BaseUrlNull | ModelIdNull

  /**
   * The constructor: a null base URL or model id is an `ArgumentNullException`
   * (the base URL is checked first); otherwise every trailing '/' is removed
   * from the base URL.
   */
  function NewClient(baseUrl: Option<string>, modelId: Option<string>): (r: Result<Client, ConstructionError>)
    ensures baseUrl.None? <==> r == Err(BaseUrlNull)
    ensures baseUrl.Some? && modelId.None? <==> r == Err(ModelIdNull)
    ensures r.Ok? ==>
      && r.value.modelId == modelId.value
      && StartsWith(baseUrl.value, r.value.baseUrl)
      && (r.value.baseUrl == "" || r.value.baseUrl[|r.value.baseUrl| - 1] != '/')
      && forall i :: |r.value.baseUrl| <= i < |baseUrl.value| ==> baseUrl.value[i] == '/'
  {
    if baseUrl.None? then Err(BaseUrlNull)
    else if modelId.None? then Err(ModelIdNull)
    else Ok(Client(TrimEnd(baseUrl.value, '/'), modelId.value))
  }

  /** A base URL is normalised once: constructing again from it changes nothing. */
  lemma NewClientIdempotent(baseUrl: string, modelId: string)
    ensures var c := NewClient(Some(baseUrl), Some(modelId));
      c.Ok? && NewClient(Some(c.value.baseUrl), Some(modelId)) == c
  {
    var t := TrimEnd(baseUrl, '/');
    assert TrimEnd(t, '/') == t;
  }

  /** The URL the request is posted to. */
  function CompletionsUrl(c: Client): (r: string)
    ensures StartsWith(r, c.baseUrl)
    ensures r[|c.baseUrl|..] == "/v1/chat/completions"
  {
    c.baseUrl + "/v1/chat/completions"
  }

  datatype RequestMessage = RequestMessage(role: string, content: string)

  datatype McpRequest = McpRequest(model: string, messages: seq<RequestMessage>, maxTokens: int,
                                   temperature: real, stream: bool)

  /**
   * `CreateMCPRequest`: the configured model, the messages in order with
   * their roles lower-cased, `max_tokens` defaulting to 2048, `temperature`
   * to 0.7, and `stream` always false.
   */
  function CreateRequest(c: Client, messages: seq<ChatMessage>, options: Option<ChatOptions>): (r: McpRequest)
    ensures r.model == c.modelId && !r.stream
    ensures |r.messages| == |messages|
    ensures forall i :: 0 <= i < |messages| ==>
      r.messages[i] == RequestMessage(ToLower(messages[i].role.value), messages[i].text)
    ensures r.maxTokens == (if options.Some? && options.value.maxOutputTokens.Some?
                            then options.value.maxOutputTokens.value else DefaultMaxTokens)
    ensures r.temperature == (if options.Some? && options.value.temperature.Some?
                              then options.value.temperature.value else DefaultTemperature)
  {
    McpRequest(
      c.modelId,
      seq(|messages|, i requires 0 <= i < |messages| =>
        RequestMessage(ToLower(messages[i].role.value), messages[i].text)),
      if options.Some? && options.value.maxOutputTokens.Some? then options.value.maxOutputTokens.value
      else DefaultMaxTokens,
      if options.Some? && options.value.temperature.Some? then options.value.temperature.value
      else DefaultTemperature,
      false)
  }

  /** The request's roles are already lower-case: lower-casing them again changes nothing. */
  lemma RequestRolesLowerCase(c: Client, messages: seq<ChatMessage>, options: Option<ChatOptions>)
    ensures forall m :: m in CreateRequest(c, messages, options).messages ==> ToLower(m.role) == m.role
  {
    forall m | m in CreateRequest(c, messages, options).messages
      ensures ToLower(m.role) == m.role
    {
      var i :| 0 <= i < |messages| && CreateRequest(c, messages, options).messages[i] == m;
      ToLowerIdempotent(messages[i].role.value);
    }
  }

  /** `choice.FinishReason switch`: "stop", "length", anything else (null included) is Unknown. */
  function MapFinishReason(reason: Option<string>): (r: FinishReason)
    ensures r == Stop <==> reason == Some("stop")
    ensures r == Length <==> reason == Some("length")
  {
    if reason == Some("stop") then Stop
    else if reason == Some("length") then Length
    else Unknown
  }

  /** The wire name of each finish reason maps back to it. */
  function FinishReasonName(f: FinishReason): Option<string> {
    match f
    case Stop => Some("stop")
    case Length => Some("length")
    case Unknown => None
  }

  lemma MapFinishReasonName(f: FinishReason)
    ensures MapFinishReason(FinishReasonName(f)) == f
  {
  }

  /** A parsed JSON document. */
  datatype Json =
    | JNull
    | JBool(b: bool)
    | JNumber(n: int)
    | JString(s: string)
    | JArray(items: seq<Json>)
    | JObject(members: seq<(string, Json)>)

  /** The response record classes: `MCPChatResponse`, `MCPChoice`, `MCPMessage`. */
  datatype McpMessage = McpMessage(content: Option<string>)
  datatype McpChoice = McpChoice(message: Option<McpMessage>, finishReason: Option<string>)
  datatype McpChatResponse = McpChatResponse(choices: Option<seq<McpChoice>>)

  datatype Property = ChoicesProperty | MessageProperty | ContentProperty | FinishReasonProperty

  /**
   * How JSON member names bind to the record's properties. `PropertyNames`
   * is what `JsonSerializer.Deserialize` does with no options: exact,
   * case-sensitive C# property names. `SnakeCase` is the OpenAI wire naming.
   */
  datatype Naming = PropertyNames | SnakeCase

  function Key(naming: Naming, p: Property): string {
    match (naming, p)
    case (PropertyNames, ChoicesProperty) => "Choices"
    case (PropertyNames, MessageProperty) => "Message"
    case (PropertyNames, ContentProperty) => "Content"
    case (PropertyNames, FinishReasonProperty) => "FinishReason"
    case (SnakeCase, ChoicesProperty) => "choices"
    case (SnakeCase, MessageProperty) => "message"
    case (SnakeCase, ContentProperty) => "content"
    case (SnakeCase, FinishReasonProperty) => "finish_reason"
  }

  /** The value of a member; when a name repeats the last occurrence wins, as it overwrites the property. */
  function Member(members: seq<(string, Json)>, key: string): (r: Option<Json>)
    ensures r.None? <==> forall i :: 0 <= i < |members| ==> members[i].0 != key
    ensures r.Some? ==> exists i :: 0 <= i < |members| && members[i] == (key, r.value)
  {
    if |members| == 0 then None
    else if members[|members| - 1].0 == key then Some(members[|members| - 1].1)
    else
      var r := Member(members[..|members| - 1], key);
      assert forall i :: 0 <= i < |members| - 1 ==> members[..|members| - 1][i] == members[i];
      r
  }

  /** A JSON value that does not fit the property's type is a `JsonException`. */
  datatype BindError = TypeMismatch

  function BindString(v: Option<Json>): Result<Option<string>, BindError> {
    match v
    case None => Ok(None)
    case Some(JNull) => Ok(None)
    case Some(JString(s)) => Ok(Some(s))
    case Some(_) => Err(TypeMismatch)
  }

  function BindMessage(naming: Naming, v: Option<Json>): Result<Option<McpMessage>, BindError> {
    match v
    case None => Ok(None)
    case Some(JNull) => Ok(None)
    case Some(JObject(ms)) =>
      var content := BindString(Member(ms, Key(naming, ContentProperty)));
      if content.Err? then Err(TypeMismatch) else Ok(Some(McpMessage(content.value)))
    case Some(_) => Err(TypeMismatch)
  }

  function BindChoice(naming: Naming, v: Json): Result<McpChoice, BindError> {
    match v
    case JObject(ms) =>
      var message := BindMessage(naming, Member(ms, Key(naming, MessageProperty)));
      var reason := BindString(Member(ms, Key(naming, FinishReasonProperty)));
      if message.Err? || reason.Err? then Err(TypeMismatch)
      else Ok(McpChoice(message.value, reason.value))
    case _ => Err(TypeMismatch)
  }

  /** The elements of a choices array, each bound in turn; a null element is left out of this model's types. */
  function BindChoiceList(naming: Naming, items: seq<Json>): (r: Result<seq<McpChoice>, BindError>)
    ensures r.Ok? ==> |r.value| == |items|
    ensures r.Ok? ==> forall i :: 0 <= i < |items| ==> BindChoice(naming, items[i]) == Ok(r.value[i])
  {
    if |items| == 0 then Ok([])
    else
      var head := BindChoice(naming, items[0]);
      var tail := BindChoiceList(naming, items[1..]);
      if head.Err? || tail.Err? then Err(TypeMismatch)
      else Ok([head.value] + tail.value)
  }

  function BindChoices(naming: Naming, v: Option<Json>): Result<Option<seq<McpChoice>>, BindError> {
    match v
    case None => Ok(None)
    case Some(JNull) => Ok(None)
    case Some(JArray(items)) =>
      var bound := BindChoiceList(naming, items);
      if bound.Err? then Err(TypeMismatch) else Ok(Some(bound.value))
    case Some(_) => Err(TypeMismatch)
  }

  /** `JsonSerializer.Deserialize<MCPChatResponse>`: a null document gives null; unknown members are ignored. */
  function BindResponse(naming: Naming, doc: Json): Result<Option<McpChatResponse>, BindError> {
    match doc
    case JNull => Ok(None)
    case JObject(ms) =>
      var choices := BindChoices(naming, Member(ms, Key(naming, ChoicesProperty)));
      if choices.Err? then Err(TypeMismatch) else Ok(Some(McpChatResponse(choices.value)))
    case _ => Err(TypeMismatch)
  }

  /**
   * What the POST came to: a JSON document from a success status, a body
   * that is not JSON at all, or the failure that was thrown.
   */
  datatype BackendOutcome =
    | Answered(doc: Json)
    | NotJson
    | HttpFailure(message: string)
    | Canceled
    | OtherFailure(message: string)

  /** A response of one assistant message with the client's model id. */
  function Reply(c: Client, text: string, now: string, reason: FinishReason): ChatResponse {
    ChatResponse([ChatMessage(Assistant, text)], c.modelId, now, reason)
  }

  /** The reply built from a bound response record. */
  function ReplyFrom(c: Client, response: Option<McpChatResponse>, now: string): (r: ChatResponse)
    ensures |r.messages| == 1 && r.messages[0].role == Assistant && r.modelId == c.modelId
  {
    if response.Some? && response.value.choices.Some? && |response.value.choices.value| > 0 then
      var choice := response.value.choices.value[0];
      var text := if choice.message.Some? && choice.message.value.content.Some?
                  then choice.message.value.content.value else NoContentReply;
      Reply(c, text, now, MapFinishReason(choice.finishReason))
    else Reply(c, NoChoicesReply, now, Unknown)
  }

  /**
   * `GetResponseAsync` with a given member naming: the first choice's
   * content and finish reason, or one of the fixed fall-back texts.
   */
  function Respond(c: Client, naming: Naming, outcome: BackendOutcome, now: string): (r: ChatResponse)
    ensures |r.messages| == 1 && r.messages[0].role == Assistant && r.modelId == c.modelId && r.createdAt == now
  {
    match outcome
    case Answered(doc) =>
      var bound := BindResponse(naming, doc);
      if bound.Err? then Reply(c, "MCP Response parsing error", now, Unknown)
      else ReplyFrom(c, bound.value, now)
    case NotJson => Reply(c, "MCP Response parsing error", now, Unknown)
    case HttpFailure(message) => Reply(c, "MCP Connection Error: " + message, now, Unknown)
    case Canceled => Reply(c, "MCP Request timed out", now, Unknown)
    case OtherFailure(message) => Reply(c, "MCP Error: " + message, now, Unknown)
  }

  /** `GetResponseAsync`, binding the OpenAI wire names (see the findings in the README). */
  function GetResponse(c: Client, outcome: BackendOutcome, now: string): (r: ChatResponse)
    ensures |r.messages| == 1 && r.messages[0].role == Assistant && r.modelId == c.modelId
  {
    Respond(c, SnakeCase, outcome, now)
  }

  /** Every failure kind gives one assistant message whose finish reason is Unknown. */
  lemma FailuresAnswered(c: Client, outcome: BackendOutcome, now: string)
    requires !outcome.Answered?
    ensures var r := GetResponse(c, outcome, now);
      && r.finishReason == Unknown
      && r.messages[0].text == match outcome
        case NotJson => "MCP Response parsing error"
        case HttpFailure(m) => "MCP Connection Error: " + m
        case Canceled => "MCP Request timed out"
        case OtherFailure(m) => "MCP Error: " + m
  {
  }

  /** A known finish reason comes only from a first choice the server sent. */
  lemma KnownReasonFromChoice(c: Client, naming: Naming, outcome: BackendOutcome, now: string)
    requires Respond(c, naming, outcome, now).finishReason != Unknown
    ensures outcome.Answered?
    ensures var bound := BindResponse(naming, outcome.doc);
      && bound.Ok? && bound.value.Some? && bound.value.value.choices.Some?
      && |bound.value.value.choices.value| > 0
      && Respond(c, naming, outcome, now).finishReason
         == MapFinishReason(bound.value.value.choices.value[0].finishReason)
  {
  }

  /**
   * A bound response with at least one choice is answered from its first
   * choice: that choice's content (or the "no content" text when it has none)
   * and that choice's finish reason.
   */
  lemma FirstChoiceAnswered(c: Client, naming: Naming, doc: Json, now: string, resp: McpChatResponse)
    requires BindResponse(naming, doc) == Ok(Some(resp))
    requires resp.choices.Some? && |resp.choices.value| > 0
    ensures var r := Respond(c, naming, Answered(doc), now);
      var first := resp.choices.value[0];
      && r.messages == [ChatMessage(Assistant, if first.message.Some? && first.message.value.content.Some?
                                               then first.message.value.content.value else NoContentReply)]
      && r.finishReason == MapFinishReason(first.finishReason)
      && r.modelId == c.modelId && r.createdAt == now
  {
  }

  /**
   * Read against the document itself: when the whole document binds, the
   * reply text is the string under the first choice's message content, and
   * the finish reason is read from the first choice's finish-reason member.
   */
  lemma DocumentContentAnswered(c: Client, naming: Naming, ms: seq<(string, Json)>, items: seq<Json>,
                                choice: seq<(string, Json)>, message: seq<(string, Json)>, s: string, now: string)
    requires BindResponse(naming, JObject(ms)).Ok?
    requires Member(ms, Key(naming, ChoicesProperty)) == Some(JArray(items))
    requires |items| > 0 && items[0] == JObject(choice)
    requires Member(choice, Key(naming, MessageProperty)) == Some(JObject(message))
    requires Member(message, Key(naming, ContentProperty)) == Some(JString(s))
    ensures var r := Respond(c, naming, Answered(JObject(ms)), now);
      && r.messages[0].text == s
      && r.finishReason == MapFinishReason(BindString(Member(choice, Key(naming, FinishReasonProperty))).value)
  {
  }

  /** A document whose choices are absent, null or empty gives the "no response" text. */
  lemma EmptyChoicesAnswered(c: Client, naming: Naming, doc: Json, now: string)
    requires BindResponse(naming, doc).Ok?
    requires var b := BindResponse(naming, doc).value;
      b.None? || b.value.choices.None? || b.value.choices.value == []
    ensures Respond(c, naming, Answered(doc), now) == Reply(c, NoChoicesReply, now, Unknown)
  {
  }

  /** An OpenAI-style completion with one choice carrying `content` and `finish_reason`. */
  function Completion(content: string, reason: string): Json {
    JObject([("id", JString("chatcmpl")), ("choices", JArray([CompletionChoice(content, reason)]))])
  }

  /** The single choice of `Completion`. */
  function CompletionChoice(content: string, reason: string): Json {
    JObject([("index", JNumber(0)),
             ("message", JObject([("role", JString("assistant")), ("content", JString(content))])),
             ("finish_reason", JString(reason))])
  }

  /**
   * As written, member names bind case-sensitively to `Choices`, so a
   * completion with the standard `choices` member binds no choices and the
   * reply is always the "no response" text.
   */
  lemma CompletionIgnoredAsWritten(c: Client, content: string, reason: string, now: string)
    ensures Respond(c, PropertyNames, Answered(Completion(content, reason)), now)
      == Reply(c, NoChoicesReply, now, Unknown)
  {
    var ms := Completion(content, reason).members;
    assert Member(ms, "Choices") == None by {
      assert ms[0].0 == "id" && ms[1].0 == "choices";
    }
  }

  /** With the wire names bound, the completion's choice binds its message content and finish reason. */
  lemma CompletionChoiceBinds(content: string, reason: string)
    ensures BindChoice(SnakeCase, CompletionChoice(content, reason))
         == Ok(McpChoice(Some(McpMessage(Some(content))), Some(reason)))
  {
    var message := JObject([("role", JString("assistant")), ("content", JString(content))]);
    var ms := CompletionChoice(content, reason).members;
    assert Member(message.members, "content") == Some(JString(content));
    assert Member(ms, "finish_reason") == Some(JString(reason));
    assert Member(ms, "message") == Some(message);
  }

  /** With the wire names bound, a completion binds to a response holding its one choice. */
  lemma CompletionBinds(content: string, reason: string)
    ensures BindResponse(SnakeCase, Completion(content, reason))
         == Ok(Some(McpChatResponse(Some([McpChoice(Some(McpMessage(Some(content))), Some(reason))]))))
  {
    var choice := CompletionChoice(content, reason);
    var ms := Completion(content, reason).members;
    assert Member(ms, "choices") == Some(JArray([choice]));
    CompletionChoiceBinds(content, reason);
    assert [choice][1..] == [];
    assert BindChoiceList(SnakeCase, [choice][1..]) == Ok([]);
    var bound := McpChoice(Some(McpMessage(Some(content))), Some(reason));
    assert BindChoiceList(SnakeCase, [choice]) == Ok([bound] + []);
    assert [bound] + [] == [bound];
    assert BindChoices(SnakeCase, Some(JArray([choice]))) == Ok(Some([bound]));
  }

  /** With the wire names bound, a completion's content and finish reason reach the caller. */
  lemma CompletionAnswered(c: Client, content: string, reason: string, now: string)
    ensures GetResponse(c, Answered(Completion(content, reason)), now)
      == Reply(c, content, now, MapFinishReason(Some(reason)))
  {
    CompletionBinds(content, reason);
  }

  /** `GetStreamingResponseAsync`: one update per message of the response, carrying its fields. */
  function Stream(response: ChatResponse): (r: seq<ChatResponseUpdate>)
    ensures |r| == |response.messages|
    ensures forall i :: 0 <= i < |r| ==>
      r[i] == ChatResponseUpdate(response.messages[i].text, response.messages[i].role,
                                 response.modelId, response.createdAt, response.finishReason)
  {
    seq(|response.messages|, i requires 0 <= i < |response.messages| =>
      ChatResponseUpdate(response.messages[i].text, response.messages[i].role,
                         response.modelId, response.createdAt, response.finishReason))
  }

  /** Streaming any outcome gives exactly one update, the assistant reply's text. */
  lemma StreamSingleUpdate(c: Client, outcome: BackendOutcome, now: string)
    ensures var r := GetResponse(c, outcome, now);
      Stream(r) == [ChatResponseUpdate(r.messages[0].text, Assistant, c.modelId, now, r.finishReason)]
  {
  }

  datatype ServiceType = HttpClientService | OtherService(name: string)

  /** `GetService`: the client's own `HttpClient` for that type, null for any other. */
  function GetService(serviceType: ServiceType): (r: Option<ServiceType>)
    ensures r.Some? <==> serviceType == HttpClientService
  {
    if serviceType == HttpClientService then Some(HttpClientService) else None
  }
}
