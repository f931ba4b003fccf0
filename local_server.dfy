/**
 * The local model gateway (`LocalModelServer`): a router from an HTTP
 * request to a fixed response record, mimicking the Ollama REST API plus
 * OpenAI-style paths under `/v1`, and the running / stopped / disposed state
 * machine behind `StartAsync`, `Stop` and `Dispose`.
 *
 * The listener, its accept loop and the fire-and-forget dispatch are not
 * modelled: a request is handled as one call, the clock readings it uses
 * are parameters, and an exception raised while handling it is an input
 * naming its kind.
 */
module LocalServer {
  import opened Options
  import opened Strings

  const DefaultPort := 11434
  const ModelName := "darbot-dev:latest"
  const ChatReply := "Hello! I'm the Darbot Dev AI assistant. This is a basic response from the local model server. Full integration would require connecting to actual local models."
  const NotFoundMessage := "Not Found"
  const ChatErrorPrefix := "Error processing chat request: "

  /** The three CORS headers every response carries, in the order they are added. */
  const CorsHeaders: seq<(string, string)> := [
    ("Access-Control-Allow-Origin", "*"),
    ("Access-Control-Allow-Methods", "GET, POST, OPTIONS"),
    ("Access-Control-Allow-Headers", "Content-Type")
  ]

  /** `request.HttpMethod` and `request.Url?.AbsolutePath` (None when the URL is null). */
  datatype Request = Request(httpMethod: string, path: Option<string>)

  /** `DateTime.UtcNow` as the chat record prints it, and one hour later for the models record. */
  datatype Clock = Clock(now: string, inOneHour: string)

  /** The kind of an exception that escapes a route handler. */
  datatype Fault = ListenerFault | InvalidOperation | OtherFault

  /**
   * What goes wrong while a request is handled: an exception escaping the
   * route handler, and the message of an exception raised inside the chat
   * handler (which catches it itself).
   */
  datatype Faults = Faults(escaping: Option<Fault>, chatFailure: Option<string>)

  datatype ModelEntry = ModelEntry(
    name: string, model: string, size: int, digest: string,
    parentModel: string, format: string, family: string, families: seq<string>,
    parameterSize: string, quantizationLevel: string, expiresAt: string)

  datatype Body =
    | ModelsBody(models: seq<ModelEntry>)
    | ChatBody(model: string, createdAt: string, role: string, content: string, done: bool,
               totalDuration: int, loadDuration: int, promptEvalCount: int,
               promptEvalDuration: int, evalCount: int, evalDuration: int)
    | VersionBody(version: string, build: string, experimental: bool)
    | ErrorBody(error: string)

  /** Status code, headers, and the JSON record written (None for a bare OPTIONS answer). */
  datatype Response = Response(status: int, headers: seq<(string, string)>, body: Option<Body>)

  datatype Route = ModelsRoute | ChatRoute | VersionRoute | NotFoundRoute

  /** The `switch` on the absolute path: exact, case-sensitive, a null path falls to the default. */
  function RouteOf(path: Option<string>): (r: Route)
    ensures r == ModelsRoute <==> path == Some("/api/tags") || path == Some("/v1/models")
    ensures r == ChatRoute <==> path == Some("/api/generate") || path == Some("/v1/chat/completions")
    ensures r == VersionRoute <==> path == Some("/api/version")
  {
    match path
    case None => NotFoundRoute
    case Some(p) =>
      if p == "/api/tags" || p == "/v1/models" then ModelsRoute
      else if p == "/api/generate" || p == "/v1/chat/completions" then ChatRoute
      else if p == "/api/version" then VersionRoute
      else NotFoundRoute
  }

  /** A JSON response with the given status: the CORS headers and the record. */
  function Json(status: int, body: Body): Response {
    Response(status, CorsHeaders, Some(body))
  }

  /** `HandleModelsRequest`: one model, `darbot-dev:latest`, expiring an hour from now. */
  function ModelsResponse(clock: Clock): Response {
    Json(200, ModelsBody([ModelEntry(ModelName, ModelName, 1000000000, "sha256:123456789abcdef",
                                     "", "gguf", "llama", ["llama"], "7B", "Q4_K_M", clock.inOneHour)]))
  }

  /** `HandleChatRequest`: the fixed assistant record whatever the request says, or 500 on failure. */
  function ChatResponse(clock: Clock, failure: Option<string>): Response {
    if failure.Some? then ErrorResponse(ChatErrorPrefix + failure.value)
    else Json(200, ChatBody(ModelName, clock.now, "assistant", ChatReply, true,
                            1000000000, 500000000, 50, 200000000, 25, 300000000))
  }

  /** `HandleVersionRequest`. */
  function VersionResponse(): Response {
    Json(200, VersionBody("0.3.11-alpha (Darbot Dev)", "darbot-dev", true))
  }

  /** `HandleNotFound`. */
  function NotFoundResponse(): Response {
    Json(404, ErrorBody(NotFoundMessage))
  }

  /** `HandleError`. */
  function ErrorResponse(message: string): Response {
    Json(500, ErrorBody(message))
  }

  /** The message `HandleRequestAsync` chooses for an exception that escapes a handler. */
  function FaultMessage(f: Fault): string {
    match f
    case ListenerFault => "Server connection error"
    case InvalidOperation => "Invalid request operation"
    case OtherFault => "Internal server error"
  }

  /** `HandleRequestAsync`: CORS headers, the OPTIONS answer, routing, and the error mapping. */
  function HandleRequest(req: Request, clock: Clock, faults: Faults): (r: Response)
    ensures r.headers == CorsHeaders
    ensures r.status in {200, 404, 500}
    ensures r.body.None? <==> req.httpMethod == "OPTIONS" && faults.escaping.None?
  {
    if faults.escaping.Some? then ErrorResponse(FaultMessage(faults.escaping.value))
    else if req.httpMethod == "OPTIONS" then Response(200, CorsHeaders, None)
    else
      match RouteOf(req.path)
      case ModelsRoute => ModelsResponse(clock)
      case ChatRoute => ChatResponse(clock, faults.chatFailure)
      case VersionRoute => VersionResponse()
      case NotFoundRoute => NotFoundResponse()
  }

  /** An OPTIONS request on any path answers 200 with no body and is never routed. */
  lemma OptionsPreflight(path: Option<string>, clock: Clock, faults: Faults)
    requires faults.escaping.None?
    ensures HandleRequest(Request("OPTIONS", path), clock, faults) == Response(200, CorsHeaders, None)
  {
  }

  /** Apart from OPTIONS, the response depends on the path only, never on GET versus POST. */
  lemma MethodIgnored(m1: string, m2: string, path: Option<string>, clock: Clock, faults: Faults)
    requires m1 != "OPTIONS" && m2 != "OPTIONS"
    ensures HandleRequest(Request(m1, path), clock, faults) == HandleRequest(Request(m2, path), clock, faults)
  {
  }

  /** Both model-list paths answer 200 with exactly one model, named `darbot-dev:latest`. */
  lemma ModelsListed(m: string, path: string, clock: Clock, faults: Faults)
    requires m != "OPTIONS" && faults.escaping.None?
    requires path == "/api/tags" || path == "/v1/models"
    ensures var r := HandleRequest(Request(m, Some(path)), clock, faults);
      && r.status == 200 && r.body.Some? && r.body.value.ModelsBody?
      && |r.body.value.models| == 1 && r.body.value.models[0].name == ModelName
  {
  }

  /**
   * Both chat paths give the same fixed assistant record with `done` set,
   * or, when the chat handler fails, 500 with its message after the chat
   * error prefix.
   */
  lemma ChatAnswered(m: string, path: string, clock: Clock, faults: Faults)
    requires m != "OPTIONS" && faults.escaping.None?
    requires path == "/api/generate" || path == "/v1/chat/completions"
    ensures var r := HandleRequest(Request(m, Some(path)), clock, faults);
      && (faults.chatFailure.None? ==>
            r.status == 200 && r.body.Some? && r.body.value.ChatBody?
            && r.body.value.role == "assistant" && r.body.value.done && r.body.value.content == ChatReply)
      && (faults.chatFailure.Some? ==>
            r.status == 500 && r.body == Some(ErrorBody(ChatErrorPrefix + faults.chatFailure.value)))
  {
  }

  /** `/api/version` gives the fixed version record. */
  lemma VersionAnswered(m: string, clock: Clock, faults: Faults)
    requires m != "OPTIONS" && faults.escaping.None?
    ensures var r := HandleRequest(Request(m, Some("/api/version")), clock, faults);
      r.status == 200 && r.body == Some(VersionBody("0.3.11-alpha (Darbot Dev)", "darbot-dev", true))
  {
  }

  /**
   * Without an escaping exception, a routed request is 404 `Not Found`
   * exactly when its path is none of the five known paths, and 500 only
   * from a failing chat handler.
   */
  lemma StatusClassified(m: string, path: Option<string>, clock: Clock, faults: Faults)
    requires m != "OPTIONS" && faults.escaping.None?
    ensures var r := HandleRequest(Request(m, path), clock, faults);
      && (r.status == 404 <==> path !in {Some("/api/tags"), Some("/v1/models"), Some("/api/generate"),
                                         Some("/v1/chat/completions"), Some("/api/version")})
      && (r.status == 404 ==> r.body == Some(ErrorBody(NotFoundMessage)))
      && (r.status == 500 <==> RouteOf(path) == ChatRoute && faults.chatFailure.Some?)
  {
  }

  /** An escaping exception always gives 500 with the message for its kind, whatever the request. */
  lemma FaultAnswered(req: Request, clock: Clock, faults: Faults)
    requires faults.escaping.Some?
    ensures var r := HandleRequest(req, clock, faults);
      r.status == 500 && r.body == Some(ErrorBody(FaultMessage(faults.escaping.value)))
  {
  }

  /** The three exception kinds get three different messages. */
  lemma FaultMessagesDistinct(f: Fault, g: Fault)
    ensures FaultMessage(f) == FaultMessage(g) <==> f == g
  {
  }

  /**
   * The server's lifecycle. `listening` is the listener's own state,
   * `cancelled` the cancellation token that stops the accept loop, and
   * `closed` whether the listener has been disposed.
   */
  class LocalModelServer {
    const port: int
    var isRunning: bool
    var listening: bool
    var cancelled: bool
    var closed: bool

    ghost predicate Valid()
      reads this
    {
      isRunning ==> listening && !closed
    }

    /** The accept loop runs while the token is not cancelled and the listener listens. */
    predicate Serving()
      reads this
    {
      isRunning && listening && !cancelled
    }

    /** The listener prefix registered for the port: the host, the port in decimal and a closing '/'. */
    function Prefix(): (r: string)
      ensures StartsWith(r, "http://localhost:")
      ensures |r| > |"http://localhost:"| + 1 && r[|r| - 1] == '/'
      ensures r[|"http://localhost:"|..|r| - 1] == IntToString(port)
    {
      var r := "http://localhost:" + IntToString(port) + "/";
      assert r[|"http://localhost:"|..|r| - 1] == IntToString(port);
      r
    }

    /** For a non-negative port, reading the digits of the prefix back gives the port. */
    lemma PrefixPort()
      requires port >= 0
      ensures var r := Prefix();
        && (forall i :: |"http://localhost:"| <= i < |r| - 1 ==> IsDigit(r[i]))
        && ParseNat(r[|"http://localhost:"|..|r| - 1]) == port
    {
      ParseNatToString(port);
    }

    constructor (p: int)
      ensures Valid()
      ensures port == p && !isRunning && !listening && !cancelled && !closed
    {
      port := p;
      isRunning := false;
      listening := false;
      cancelled := false;
      closed := false;
    }

    /**
     * `StartAsync`: nothing when already running; otherwise the listener
     * starts, which fails on a disposed listener or a failed bind, and a
     * failure leaves the server not running. A server stopped before keeps
     * its cancelled token, so a restart runs without serving.
     */
    method Start(bindSucceeds: bool) returns (ok: bool)
      requires Valid()
      modifies this
      ensures Valid()
      ensures old(isRunning) ==> ok && unchanged(this)
      ensures !old(isRunning) ==>
        && ok == (!old(closed) && bindSucceeds)
        && isRunning == ok
        && listening == (ok || old(listening))
        && cancelled == old(cancelled) && closed == old(closed)
      ensures ok && !old(isRunning) ==> (Serving() <==> !old(cancelled))
    {
      if isRunning {
        return true;
      }
      if closed || !bindSucceeds {
        isRunning := false;
        return false;
      }
      listening := true;
      isRunning := true;
      return true;
    }

    /** `Stop`: nothing when not running; otherwise cancels the token and stops the listener. */
    method Stop()
      requires Valid()
      modifies this
      ensures Valid() && !isRunning && !Serving()
      ensures !old(isRunning) ==> unchanged(this)
      ensures old(isRunning) ==> cancelled && !listening && closed == old(closed)
    {
      if !isRunning {
        return;
      }
      cancelled := true;
      listening := false;
      isRunning := false;
    }

    /** `Dispose`: stops the server, then closes the listener for good. */
    method Dispose()
      requires Valid()
      modifies this
      ensures Valid() && !isRunning && !listening && closed
      ensures cancelled == (old(cancelled) || old(isRunning))
    {
      Stop();
      listening := false;
      closed := true;
    }
  }
}
