/**
 * Natural Language Web helpers (`NLWebIntegration`): keyword-driven web
 * suggestions for a query, the guards and error texts of query
 * processing, and the fall-backs of turning a structured response back
 * into prose.
 *
 * The language model is an input: what its call came to is a
 * `ModelOutcome`, the reply's last message text or the kind of exception
 * it threw. Logging through the production logger is not modelled here.
 */
module NLWeb {
  import opened Options
  import opened Strings

  /** A keyword group: either keyword in the lower-cased query adds the group's two suggestions. */
  datatype KeywordGroup = KeywordGroup(keyword: string, alternative: string, lines: seq<string>)

  const SearchGroup := KeywordGroup("search", "find",
    ["\U{1F50D} Web Search: Use search engines to find information",
     "\U{1F4CA} Data Search: Query structured databases"])
  const ApiGroup := KeywordGroup("api", "service",
    ["\U{1F517} API Call: Make REST API requests",
     "\U{2699}\U{FE0F} Service Integration: Connect to web services"])
  const AnalysisGroup := KeywordGroup("analyze", "process",
    ["\U{1F4C8} Data Analysis: Analyze web-based data",
     "\U{1F9E0} AI Processing: Use AI models for analysis"])
  const ModelGroup := KeywordGroup("model", "ai",
    ["\U{1F916} Model Query: Interact with AI models",
     "\U{1F504} Model Pipeline: Chain multiple AI operations"])

  /** The groups in the order they are tested. */
  const Groups := [SearchGroup, ApiGroup, AnalysisGroup, ModelGroup]

  /** The suggestions given when no group matches. */
  const DefaultSuggestions := [
    "\U{1F4AC} Natural Conversation: Ask questions in natural language",
    "\U{1F310} Web Integration: Connect to web-based AI services",
    "\U{1F4F1} Cross-Platform: Use via web, mobile, or desktop"]

  /** A case-insensitive substring test of either keyword, as on `ToLowerInvariant()` of the query. */
  predicate Matches(query: string, g: KeywordGroup) {
    Contains(ToLower(query), g.keyword) || Contains(ToLower(query), g.alternative)
  }

  /** The lines of the matching groups among gs, in the order of gs. */
  function Collect(query: string, gs: seq<KeywordGroup>): (r: seq<string>)
    decreases |gs|
  {
    if |gs| == 0 then []
    else
      var last := gs[|gs| - 1];
      Collect(query, gs[..|gs| - 1]) + (if Matches(query, last) then last.lines else [])
  }

  /** What `GenerateWebSuggestions` yields: the matching groups' lines in order, else the defaults. */
  function WebSuggestions(query: string): seq<string> {
    var found := Collect(query, Groups);
    if |found| == 0 then DefaultSuggestions else found
  }

  /** Collecting over the four groups is the four tests in their order. */
  lemma CollectGroups(query: string)
    ensures Collect(query, Groups)
         == (if Matches(query, SearchGroup) then SearchGroup.lines else [])
          + (if Matches(query, ApiGroup) then ApiGroup.lines else [])
          + (if Matches(query, AnalysisGroup) then AnalysisGroup.lines else [])
          + (if Matches(query, ModelGroup) then ModelGroup.lines else [])
  {
    var g0, g1, g2, g3: seq<KeywordGroup> := [], [SearchGroup], [SearchGroup, ApiGroup], [SearchGroup, ApiGroup, AnalysisGroup];
    assert g1[..0] == g0 && g2[..1] == g1 && g3[..2] == g2 && Groups[..3] == g3;
    assert Collect(query, g0) == [];
    var c1 := Collect(query, g1);
    var c2 := Collect(query, g2);
    var c3 := Collect(query, g3);
    assert c1 == (if Matches(query, SearchGroup) then SearchGroup.lines else []);
    assert c2 == c1 + (if Matches(query, ApiGroup) then ApiGroup.lines else []);
    assert c3 == c2 + (if Matches(query, AnalysisGroup) then AnalysisGroup.lines else []);
    assert Collect(query, Groups) == c3 + (if Matches(query, ModelGroup) then ModelGroup.lines else []);
  }

  /**
   * `GenerateWebSuggestions`: the list built by the chain of keyword
   * tests, with the defaults added when nothing matched.
   */
  method GenerateWebSuggestions(query: string) returns (suggestions: seq<string>)
    ensures suggestions == WebSuggestions(query)
  {
    CollectGroups(query);
    suggestions := [];
    var lowerQuery := ToLower(query);
    if Contains(lowerQuery, "search") || Contains(lowerQuery, "find") {
      suggestions := suggestions + ["\U{1F50D} Web Search: Use search engines to find information"];
      suggestions := suggestions + ["\U{1F4CA} Data Search: Query structured databases"];
    }
    assert suggestions == if Matches(query, SearchGroup) then SearchGroup.lines else [];
    ghost var before := suggestions;
    if Contains(lowerQuery, "api") || Contains(lowerQuery, "service") {
      suggestions := suggestions + ["\U{1F517} API Call: Make REST API requests"];
      suggestions := suggestions + ["\U{2699}\U{FE0F} Service Integration: Connect to web services"];
    }
    assert suggestions == before + if Matches(query, ApiGroup) then ApiGroup.lines else [];
    before := suggestions;
    if Contains(lowerQuery, "analyze") || Contains(lowerQuery, "process") {
      suggestions := suggestions + ["\U{1F4C8} Data Analysis: Analyze web-based data"];
      suggestions := suggestions + ["\U{1F9E0} AI Processing: Use AI models for analysis"];
    }
    assert suggestions == before + if Matches(query, AnalysisGroup) then AnalysisGroup.lines else [];
    before := suggestions;
    if Contains(lowerQuery, "model") || Contains(lowerQuery, "ai") {
      suggestions := suggestions + ["\U{1F916} Model Query: Interact with AI models"];
      suggestions := suggestions + ["\U{1F504} Model Pipeline: Chain multiple AI operations"];
    }
    assert suggestions == before + if Matches(query, ModelGroup) then ModelGroup.lines else [];
    if |suggestions| == 0 {
      suggestions := suggestions + ["\U{1F4AC} Natural Conversation: Ask questions in natural language"];
      suggestions := suggestions + ["\U{1F310} Web Integration: Connect to web-based AI services"];
      suggestions := suggestions + ["\U{1F4F1} Cross-Platform: Use via web, mobile, or desktop"];
    }
  }

  /** How many of the groups gs match the query. */
  function MatchCount(query: string, gs: seq<KeywordGroup>): (k: nat)
    ensures k <= |gs|
    decreases |gs|
  {
    if |gs| == 0 then 0
    else MatchCount(query, gs[..|gs| - 1]) + (if Matches(query, gs[|gs| - 1]) then 1 else 0)
  }

  /** Each matching group of two lines adds exactly two suggestions. */
  lemma {:induction false} CollectLength(query: string, gs: seq<KeywordGroup>)
    requires forall j :: 0 <= j < |gs| ==> |gs[j].lines| == 2
    ensures |Collect(query, gs)| == 2 * MatchCount(query, gs)
    decreases |gs|
  {
    if |gs| > 0 {
      CollectLength(query, gs[..|gs| - 1]);
    }
  }

  /** A suggestion comes from a matching group, and every line of a matching group is suggested. */
  lemma {:induction false} CollectMembers(query: string, gs: seq<KeywordGroup>)
    ensures forall s :: s in Collect(query, gs) <==>
      exists j :: 0 <= j < |gs| && Matches(query, gs[j]) && s in gs[j].lines
    decreases |gs|
  {
    if |gs| > 0 {
      var init := gs[..|gs| - 1];
      CollectMembers(query, init);
      assert forall j :: 0 <= j < |init| ==> init[j] == gs[j];
    }
  }

  /**
   * There are three suggestions when no group matches and two per
   * matching group otherwise, so never none and always 2, 3, 4, 6 or 8.
   */
  lemma SuggestionCount(query: string)
    ensures var r := WebSuggestions(query);
      var k := MatchCount(query, Groups);
      && (k == 0 ==> |r| == 3)
      && (k > 0 ==> |r| == 2 * k)
      && |r| in {2, 3, 4, 6, 8}
  {
    CollectLength(query, Groups);
  }

  /** No matching group gives exactly the three default suggestions. */
  lemma DefaultsWhenNothingMatches(query: string)
    ensures (forall j :: 0 <= j < |Groups| ==> !Matches(query, Groups[j]))
        <==> WebSuggestions(query) == DefaultSuggestions
  {
    CollectGroups(query);
    assert Groups[0] == SearchGroup && Groups[1] == ApiGroup && Groups[2] == AnalysisGroup && Groups[3] == ModelGroup;
  }

  /** A group's lines are suggested exactly when the group matches the query. */
  lemma GroupSuggested(query: string, i: nat)
    requires i < |Groups|
    ensures Groups[i].lines[0] in WebSuggestions(query) <==> Matches(query, Groups[i])
    ensures Matches(query, Groups[i]) ==> forall line :: line in Groups[i].lines ==> line in WebSuggestions(query)
  {
    CollectMembers(query, Groups);
    var line := Groups[i].lines[0];
    if Matches(query, Groups[i]) {
      assert line in Groups[i].lines;
    } else if line in WebSuggestions(query) {
      if line in Collect(query, Groups) {
        var j :| 0 <= j < |Groups| && Matches(query, Groups[j]) && line in Groups[j].lines;
        LinesApart(i, j);
      } else {
        NotDefault(i);
      }
      assert false;
    }
  }

  /** No two groups share a line. */
  lemma LinesApart(i: nat, j: nat)
    requires i < |Groups| && j < |Groups| && i != j
    ensures Groups[i].lines[0] !in Groups[j].lines
  {
  }

  /** No group's line is a default suggestion. */
  lemma NotDefault(i: nat)
    requires i < |Groups|
    ensures Groups[i].lines[0] !in DefaultSuggestions
  {
  }

  /** Matching is by substring, so "said" matches the model group through "ai". */
  lemma SaidMatchesModelGroup()
    ensures Matches("said", ModelGroup)
  {
    var lower := ToLower("said");
    assert lower == "said";
    assert OccursAt(lower, "ai", 1);
    ContainsAt(lower, "ai");
  }

  /** The exception types `ProcessNaturalLanguageQuery` catches, in the order of its handlers. */
  datatype ExceptionKind = ArgumentError | Canceled | InvalidOperation | OtherError

  /** What the language model call came to: the reply's last message text, if any, or what it threw. */
  datatype ModelOutcome =
    | Replied(lastText: Option<string>)
    | Threw(kind: ExceptionKind, message: string)

  /** `NLWebResponse`; the always-empty `Metadata` is not part of this model. */
  datatype NLWebResponse = NLWebResponse(success: bool, error: Option<string>, originalQuery: Option<string>,
                                         processedResponse: Option<string>, suggestions: seq<string>)

  const EmptyQueryError := "Query cannot be empty"
  const NoClientError := "No chat client available for NLWeb processing"

  function Failure(error: string): NLWebResponse {
    NLWebResponse(false, Some(error), None, None, [])
  }

  /** The error text of each handler. */
  function ErrorText(kind: ExceptionKind, message: string): string {
    match kind
    case ArgumentError => "Invalid query format: " + message
    case Canceled => "Processing was cancelled or timed out"
    case InvalidOperation => "Processing error: " + message
    case OtherError => "NLWeb processing error: " + message
  }

  /**
   * `ProcessNaturalLanguageQuery`: a blank query is refused first, then a
   * missing client; otherwise the model's reply is returned with the
   * query and its suggestions, or the failure's error text.
   */
  function ProcessQuery(query: string, hasClient: bool, outcome: ModelOutcome): (r: NLWebResponse)
    ensures r.success <==> !IsBlank(query) && hasClient && outcome.Replied?
    ensures IsBlank(query) ==> r.error == Some(EmptyQueryError)
    ensures !IsBlank(query) && !hasClient ==> r.error == Some(NoClientError)
    ensures r.success ==>
      && r.error.None? && r.originalQuery == Some(query) && r.suggestions == WebSuggestions(query)
      && r.processedResponse == Some(if outcome.lastText.Some? then outcome.lastText.value else "")
    ensures !r.success ==> r.error.Some? && r.originalQuery.None? && r.processedResponse.None? && r.suggestions == []
  {
    if IsBlank(query) then Failure(EmptyQueryError)
    else if !hasClient then Failure(NoClientError)
    else
      match outcome
      case Replied(text) =>
        NLWebResponse(true, None, Some(query), Some(if text.Some? then text.value else ""), WebSuggestions(query))
      case Threw(kind, message) => Failure(ErrorText(kind, message))
  }

  /** A query of ideographic spaces and line or paragraph separators only is blank, so it is refused. */
  lemma WideSpaceQueryRefused(query: string, hasClient: bool, outcome: ModelOutcome)
    requires forall i :: 0 <= i < |query| ==>
      query[i] == '\U{3000}' || query[i] == '\U{2028}' || query[i] == '\U{2029}'
    ensures !ProcessQuery(query, hasClient, outcome).success
    ensures ProcessQuery(query, hasClient, outcome).error == Some(EmptyQueryError)
  {
  }

  /** A successful answer always carries at least two suggestions. */
  lemma AnswerHasSuggestions(query: string, outcome: ModelOutcome)
    requires ProcessQuery(query, true, outcome).success
    ensures |ProcessQuery(query, true, outcome).suggestions| >= 2
  {
    SuggestionCount(query);
  }

  /** A call that threw reports its handler's error text, whatever the query's keywords. */
  lemma ThrownReported(query: string, kind: ExceptionKind, message: string)
    requires !IsBlank(query)
    ensures ProcessQuery(query, true, Threw(kind, message)) == Failure(ErrorText(kind, message))
  {
  }

  /** The four handlers' texts are told apart by their beginnings. */
  lemma ErrorTextsDistinct(k1: ExceptionKind, m1: string, k2: ExceptionKind, m2: string)
    requires k1 != k2
    ensures ErrorText(k1, m1) != ErrorText(k2, m2)
  {
    var t1, t2 := ErrorText(k1, m1), ErrorText(k2, m2);
    assert t1[0] != t2[0] || t1[11] != t2[11];
  }

  /**
   * `ConvertResponseToNaturalLanguage`: without a client the structured
   * text is labelled; a reply's last text is returned, or the structured
   * text when the reply has none; a failure gives a sentence quoting the
   * query and the structured text.
   */
  function ConvertToNaturalLanguage(structured: string, originalQuery: string, hasClient: bool,
                                    outcome: ModelOutcome): (r: string)
    ensures !hasClient ==> StartsWith(r, "Response: ") && r[|"Response: "|..] == structured
    ensures hasClient && outcome == Replied(None) ==> r == structured
    ensures hasClient && outcome.Replied? && outcome.lastText.Some? ==> r == outcome.lastText.value
    ensures hasClient && outcome.Threw? ==> Contains(r, originalQuery) && Contains(r, structured)
  {
    if !hasClient then
      var r := "Response: " + structured;
      assert r[..|"Response: "|] == "Response: ";
      r
    else
      match outcome
      case Replied(text) => if text.Some? then text.value else structured
      case Threw(_, _) =>
        var r := "Based on your query '" + originalQuery + "', here's what I found: " + structured;
        EmbedsBoth("Based on your query '", originalQuery, "', here's what I found: ", structured);
        r
  }

  /** Both texts of a concatenation a + x + b + y occur in it. */
  lemma EmbedsBoth(a: string, x: string, b: string, y: string)
    ensures Contains(a + x + b + y, x) && Contains(a + x + b + y, y)
  {
    var s := a + x + b + y;
    assert OccursAt(s, x, |a|) by {
      assert s[|a|..|a| + |x|] == x;
    }
    assert OccursAt(s, y, |a + x + b|) by {
      assert s[|a + x + b|..|a + x + b| + |y|] == y;
    }
    ContainsAt(s, x);
    ContainsAt(s, y);
  }
}
