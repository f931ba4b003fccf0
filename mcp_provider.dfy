/**
 * The MCP model provider (`MCPModelProvider`): discovery of servers among
 * a deduplicated list of candidate endpoints, the discovery cache, the
 * placeholder descriptor shown when nothing answers, and the mapping of an
 * `mcp://authority/model` URL to a chat client.
 *
 * The network is an input: `reachable(url)` says whether a GET of that URL
 * came back with a success status and a readable body. The hex hash that
 * names a discovered model and the theme's icon suffix are inputs too.
 */
module McpProvider {
  import opened Options
  import opened Strings
  import opened Uris
  import Configuration
  import McpChat
  import opened ModelCatalog

  const ProviderName := "MCP Library"
  const ProviderDescription := "Models will run via MCP (Model Context Protocol)"
  const ProviderUrl := "http://localhost:8000/"
  const DefaultServerUrl := "http://localhost:8000"
  const DefaultTimeoutSeconds := 5
  const Fallbacks := ["http://localhost:3000/", "http://127.0.0.1:8000/", "http://127.0.0.1:3000/"]
  const PlaceholderUrl := "mcp://localhost:8000/configure"

  /** The endpoints to check: the configured server URL, then the three fixed fall-backs. */
  function Candidates(settings: Configuration.Settings): seq<string> {
    [Configuration.GetString(settings, "mcp_server_url", DefaultServerUrl)] + Fallbacks
  }

  predicate NoDuplicates(xs: seq<string>) {
    forall i, j :: 0 <= i < j < |xs| ==> xs[i] != xs[j]
  }

  /** `Enumerable.Distinct`: each element once, at its first occurrence. */
  function Distinct(xs: seq<string>): (r: seq<string>)
    ensures NoDuplicates(r)
    ensures forall x :: x in r <==> x in xs
    ensures |xs| > 0 ==> |r| > 0 && r[0] == xs[0]
    decreases |xs|
  {
    if |xs| == 0 then []
    else
      var init := xs[..|xs| - 1];
      var d := Distinct(init);
      assert forall x :: x in xs <==> x in init || x == xs[|xs| - 1] by {
        assert xs == init + [xs[|xs| - 1]];
      }
      assert |xs| > 1 ==> init[0] == xs[0];
      if xs[|xs| - 1] in d then d else d + [xs[|xs| - 1]]
  }

  /** Distinct candidates keep every element and are already distinct. */
  lemma DistinctIdempotent(xs: seq<string>)
    requires NoDuplicates(xs)
    ensures Distinct(xs) == xs
    decreases |xs|
  {
    if |xs| > 0 {
      var init := xs[..|xs| - 1];
      assert NoDuplicates(init);
      DistinctIdempotent(init);
      assert xs[|xs| - 1] !in init;
      assert xs[|xs| - 1] !in Distinct(init);
      assert xs == init + [xs[|xs| - 1]];
    }
  }

  /** The position of the first occurrence of x in xs. */
  function FirstIndex(xs: seq<string>, x: string): (k: nat)
    requires x in xs
    ensures k < |xs| && xs[k] == x
    ensures forall i :: 0 <= i < k ==> xs[i] != x
    decreases |xs|
  {
    if xs[0] == x then 0 else 1 + FirstIndex(xs[1..], x)
  }

  /** Dropping the last element keeps the first occurrence of anything that occurs before it. */
  lemma FirstIndexInit(xs: seq<string>, x: string)
    requires |xs| > 0 && x in xs[..|xs| - 1]
    ensures FirstIndex(xs, x) == FirstIndex(xs[..|xs| - 1], x)
  {
  }

  /** The elements of r, all drawn from xs, appear in the order of their first occurrences in xs. */
  predicate InFirstOccurrenceOrder(xs: seq<string>, r: seq<string>)
    requires forall x :: x in r ==> x in xs
  {
    forall i, j :: 0 <= i < j < |r| ==> FirstIndex(xs, r[i]) < FirstIndex(xs, r[j])
  }

  /** Distinct lists the elements in the order of their first occurrences. */
  lemma {:induction false} DistinctFirstOccurrences(xs: seq<string>)
    ensures InFirstOccurrenceOrder(xs, Distinct(xs))
    decreases |xs|
  {
    if |xs| > 0 {
      var init := xs[..|xs| - 1];
      var last := xs[|xs| - 1];
      var d := Distinct(init);
      DistinctFirstOccurrences(init);
      var r := Distinct(xs);
      assert r == if last in d then d else d + [last];
      forall i, j | 0 <= i < j < |r|
        ensures FirstIndex(xs, r[i]) < FirstIndex(xs, r[j])
      {
        assert r[i] == d[i] && r[i] in init;
        FirstIndexInit(xs, r[i]);
        if j < |d| {
          assert r[j] == d[j] && r[j] in init;
          FirstIndexInit(xs, r[j]);
          assert FirstIndex(init, d[i]) < FirstIndex(init, d[j]);
        } else {
          assert r[j] == last && last !in init;
          assert forall k :: 0 <= k < |init| ==> xs[k] == init[k];
          assert FirstIndex(xs, last) == |init|;
          assert FirstIndex(init, d[i]) < |init|;
        }
      }
    }
  }

  /** The URL probed for an endpoint: plain concatenation, no separator added. */
  function ProbeUrl(endpoint: string): string {
    endpoint + "v1/models"
  }

  /** `HttpClient.Timeout` accepts a positive span of at most `int.MaxValue` milliseconds. */
  predicate TimeoutValid(seconds: int) {
    0 < seconds && seconds * 1000 <= 0x7FFF_FFFF
  }

  /** HttpClient sends only http and https requests. */
  predicate IsHttpScheme(scheme: string) {
    ToLower(scheme) == "http" || ToLower(scheme) == "https"
  }

  /** The descriptor added for an endpoint that answered. */
  function DiscoveredModel(endpoint: string, u: Uri, hash: string, themeSuffix: string): ModelDetails {
    ModelDetails("mcp-" + hash, "MCP Model (" + IntToString(Port(u)) + ")",
                 McpUrlPrefix + u.authority + "/model", "Model available via MCP at " + endpoint,
                 [MCP], 0, true, Icon("MCP", themeSuffix))
  }

  /** The descriptor returned when no endpoint answers. */
  function Placeholder(themeSuffix: string): ModelDetails {
    ModelDetails("mcp-placeholder", "Configure MCP Server", PlaceholderUrl,
                 "No MCP servers detected. Configure MCP server endpoints in settings.",
                 [MCP], 0, true, Icon("MCP", themeSuffix))
  }

  /**
   * One iteration of the probe loop. Any exception inside it (an invalid
   * timeout, an unparsable probe URL or endpoint, a scheme HttpClient does
   * not send, a failed request) is swallowed and adds nothing.
   */
  function Probe(endpoint: string, timeout: int, reachable: string -> bool, hash: string -> string,
                 themeSuffix: string): (r: Option<ModelDetails>)
    ensures r.Some? ==> reachable(ProbeUrl(endpoint)) && TimeoutValid(timeout)
    ensures r.Some? ==> ParseUri(endpoint).Some? && r.value == DiscoveredModel(endpoint, ParseUri(endpoint).value, hash(endpoint), themeSuffix)
  {
    var probe := ParseUri(ProbeUrl(endpoint));
    if !TimeoutValid(timeout) || probe.None? || !IsHttpScheme(probe.value.scheme) || !reachable(ProbeUrl(endpoint))
    then None
    else
      match ParseUri(endpoint)
      case None => None
      case Some(u) => Some(DiscoveredModel(endpoint, u, hash(endpoint), themeSuffix))
  }

  /** The models found by probing the endpoints in order. */
  function Discover(endpoints: seq<string>, timeout: int, reachable: string -> bool, hash: string -> string,
                    themeSuffix: string): seq<ModelDetails>
    decreases |endpoints|
  {
    if |endpoints| == 0 then []
    else
      var last := Probe(endpoints[|endpoints| - 1], timeout, reachable, hash, themeSuffix);
      Discover(endpoints[..|endpoints| - 1], timeout, reachable, hash, themeSuffix)
      + (if last.Some? then [last.value] else [])
  }

  /**
   * Probes are independent: what a list of endpoints yields is what its
   * parts yield, so a failing endpoint costs only its own entry.
   */
  lemma {:induction false} DiscoverAppend(a: seq<string>, b: seq<string>, timeout: int, reachable: string -> bool,
                                          hash: string -> string, themeSuffix: string)
    ensures Discover(a + b, timeout, reachable, hash, themeSuffix)
         == Discover(a, timeout, reachable, hash, themeSuffix) + Discover(b, timeout, reachable, hash, themeSuffix)
    decreases |b|
  {
    if |b| == 0 {
      assert a + b == a;
    } else {
      var b', x := b[..|b| - 1], b[|b| - 1];
      DiscoverAppend(a, b', timeout, reachable, hash, themeSuffix);
      assert b == b' + [x];
      assert a + b == (a + b') + [x];
      DiscoverSnoc(a + b', x, timeout, reachable, hash, themeSuffix);
      DiscoverSnoc(b', x, timeout, reachable, hash, themeSuffix);
    }
  }

  /** One more endpoint adds what probing it alone finds. */
  lemma DiscoverSnoc(es: seq<string>, e: string, timeout: int, reachable: string -> bool,
                     hash: string -> string, themeSuffix: string)
    ensures Discover(es + [e], timeout, reachable, hash, themeSuffix)
         == Discover(es, timeout, reachable, hash, themeSuffix) + Discover([e], timeout, reachable, hash, themeSuffix)
  {
    assert (es + [e])[..|es|] == es;
    assert [e][..0] == [];
  }

  /** Each discovered model comes from an endpoint that answered, in endpoint order. */
  lemma {:induction false} DiscoverSound(endpoints: seq<string>, timeout: int, reachable: string -> bool,
                                         hash: string -> string, themeSuffix: string)
    ensures |Discover(endpoints, timeout, reachable, hash, themeSuffix)| <= |endpoints|
    ensures forall m :: m in Discover(endpoints, timeout, reachable, hash, themeSuffix) ==>
      exists e :: e in endpoints && Probe(e, timeout, reachable, hash, themeSuffix) == Some(m)
    decreases |endpoints|
  {
    if |endpoints| > 0 {
      var init := endpoints[..|endpoints| - 1];
      DiscoverSound(init, timeout, reachable, hash, themeSuffix);
      forall m | m in Discover(endpoints, timeout, reachable, hash, themeSuffix)
        ensures exists e :: e in endpoints && Probe(e, timeout, reachable, hash, themeSuffix) == Some(m)
      {
        if m in Discover(init, timeout, reachable, hash, themeSuffix) {
          var e :| e in init && Probe(e, timeout, reachable, hash, themeSuffix) == Some(m);
          assert e in endpoints;
        } else {
          assert endpoints[|endpoints| - 1] in endpoints;
        }
      }
    }
  }

  /** With an invalid timeout every probe fails, so discovery finds nothing. */
  lemma {:induction false} InvalidTimeoutFindsNothing(endpoints: seq<string>, timeout: int, reachable: string -> bool,
                                                      hash: string -> string, themeSuffix: string)
    requires !TimeoutValid(timeout)
    ensures Discover(endpoints, timeout, reachable, hash, themeSuffix) == []
    decreases |endpoints|
  {
    if |endpoints| > 0 {
      InvalidTimeoutFindsNothing(endpoints[..|endpoints| - 1], timeout, reachable, hash, themeSuffix);
    }
  }

  /**
   * An endpoint `scheme://host:port` written without a trailing '/' is
   * probed at `scheme://host:portv1/models`, whose port does not parse:
   * such a candidate never answers, whatever the network does.
   */
  lemma SlashlessEndpointNeverAnswers(scheme: string, host: string, port: string, timeout: int,
                                      reachable: string -> bool, hash: string -> string, themeSuffix: string)
    requires IsScheme(scheme)
    requires |host| > 0 && ':' !in host && forall i :: 0 <= i < |host| ==> host[i] !in AuthorityEnd
    requires AllDigits(port)
    ensures Probe(scheme + "://" + host + [':'] + port, timeout, reachable, hash, themeSuffix) == None
  {
    var endpoint := scheme + "://" + host + [':'] + port;
    var authority := host + [':'] + (port + "v1");
    PortSuffixRejected(host, port);
    PortSuffixAuthority(host, port);
    RejectsBadPort(scheme, authority, "/models");
    assert ProbeUrl(endpoint) == scheme + "://" + authority + "/models";
  }

  /** Appending "v1" to a port leaves it not a port. */
  lemma PortSuffixRejected(host: string, port: string)
    requires |host| > 0 && ':' !in host
    requires AllDigits(port)
    ensures !HasValidPort(host + [':'] + (port + "v1"))
  {
    var tail := port + "v1";
    assert ':' !in tail by {
      assert forall i :: 0 <= i < |port| ==> IsDigit(port[i]);
      assert forall i :: 0 <= i < |tail| ==> tail[i] == if i < |port| then port[i] else "v1"[i - |port|];
    }
    LastPieceAfter(host, tail, ':');
    assert !IsDigit(tail[|port|]);
  }

  lemma PortSuffixAuthority(host: string, port: string)
    requires forall i :: 0 <= i < |host| ==> host[i] !in AuthorityEnd
    requires AllDigits(port)
    ensures var a := host + [':'] + (port + "v1"); forall i :: 0 <= i < |a| ==> a[i] !in AuthorityEnd
  {
    var authority := host + [':'] + (port + "v1");
    assert forall i :: 0 <= i < |port| ==> IsDigit(port[i]);
    assert forall i :: 0 <= i < |authority| ==>
      authority[i] == (if i < |host| then host[i] else if i == |host| then ':'
                       else if i < |host| + 1 + |port| then port[i - |host| - 1]
                       else "v1"[i - |host| - 1 - |port|]);
  }

  /** The default server URL is such an endpoint, so it is never discovered. */
  lemma DefaultEndpointNeverAnswers(timeout: int, reachable: string -> bool, hash: string -> string, themeSuffix: string)
    ensures Probe(DefaultServerUrl, timeout, reachable, hash, themeSuffix) == None
  {
    assert IsScheme("http") by {
      assert forall i | 0 <= i < 4 :: IsSchemeChar("http"[i]);
    }
    SlashlessEndpointNeverAnswers("http", "localhost", "8000", timeout, reachable, hash, themeSuffix);
    assert "http" + "://" + "localhost" + [':'] + "8000" == DefaultServerUrl;
  }

  /** The endpoints probed: the candidates, each once. */
  function Endpoints(settings: Configuration.Settings): seq<string> {
    Distinct(Candidates(settings))
  }

  /** `mcp_timeout_seconds`, 5 by default. */
  function Timeout(settings: Configuration.Settings): int {
    Configuration.GetInt(settings, "mcp_timeout_seconds", DefaultTimeoutSeconds)
  }

  /** The models a discovery yields when MCP is enabled: what answered, or the placeholder. */
  function DiscoveryResult(settings: Configuration.Settings, reachable: string -> bool, hash: string -> string,
                           themeSuffix: string): (r: seq<ModelDetails>)
    ensures |r| > 0
  {
    var found := Discover(Endpoints(settings), Timeout(settings), reachable, hash, themeSuffix);
    if |found| == 0 then [Placeholder(themeSuffix)] else found
  }

  /**
   * An enabled discovery yields between one and four models: the
   * placeholder, or a descriptor for each candidate endpoint that parsed
   * and answered its probe.
   */
  lemma DiscoveryProvenance(settings: Configuration.Settings, reachable: string -> bool, hash: string -> string,
                            themeSuffix: string)
    ensures var r := DiscoveryResult(settings, reachable, hash, themeSuffix);
      && 1 <= |r| <= 4
      && forall m :: m in r ==>
        (m == Placeholder(themeSuffix) ||
         exists e :: e in Candidates(settings) && ParseUri(e).Some? && reachable(ProbeUrl(e))
                  && m == DiscoveredModel(e, ParseUri(e).value, hash(e), themeSuffix))
  {
    var endpoints, pool := Endpoints(settings), Candidates(settings);
    DistinctBound(pool);
    DiscoverSound(endpoints, Timeout(settings), reachable, hash, themeSuffix);
    DiscoveredFrom(endpoints, pool, Timeout(settings), reachable, hash, themeSuffix);
  }

  /** Every model discovered among endpoints drawn from a pool describes a pool member that parsed and answered. */
  lemma DiscoveredFrom(endpoints: seq<string>, pool: seq<string>, timeout: int, reachable: string -> bool,
                       hash: string -> string, themeSuffix: string)
    requires forall e :: e in endpoints ==> e in pool
    ensures forall m :: m in Discover(endpoints, timeout, reachable, hash, themeSuffix) ==>
      exists e :: e in pool && ParseUri(e).Some? && reachable(ProbeUrl(e))
               && m == DiscoveredModel(e, ParseUri(e).value, hash(e), themeSuffix)
  {
    DiscoverSound(endpoints, timeout, reachable, hash, themeSuffix);
    forall m | m in Discover(endpoints, timeout, reachable, hash, themeSuffix)
      ensures exists e :: e in pool && ParseUri(e).Some? && reachable(ProbeUrl(e))
                       && m == DiscoveredModel(e, ParseUri(e).value, hash(e), themeSuffix)
    {
      var e :| e in endpoints && Probe(e, timeout, reachable, hash, themeSuffix) == Some(m);
      assert e in pool;
    }
  }

  lemma DistinctBound(xs: seq<string>)
    ensures |Distinct(xs)| <= |xs|
    decreases |xs|
  {
    if |xs| > 0 {
      DistinctBound(xs[..|xs| - 1]);
    }
  }

  /** `GetIChatClient`: only `mcp://` URLs that parse give a client, for `http://<authority>` and the trimmed path. */
  function GetIChatClient(url: string): (r: Option<McpChat.Client>)
    ensures r.Some? <==> StartsWith(url, McpUrlPrefix) && ParseUri(url).Some?
    ensures r.Some? ==>
      r.value.baseUrl == "http://" + ParseUri(url).value.authority
      && r.value.modelId == TrimStart(ParseUri(url).value.pathAndQuery, '/')
  {
    if !StartsWith(url, McpUrlPrefix) then None
    else match ParseUri(url)
      case None => None
      case Some(u) =>
        var c := McpChat.NewClient(Some("http://" + u.authority), Some(TrimStart(u.pathAndQuery, '/')));
        assert TrimEnd("http://" + u.authority, '/') == "http://" + u.authority by {
          assert ("http://" + u.authority)[|"http://" + u.authority| - 1] == u.authority[|u.authority| - 1];
        }
        Some(c.value)
  }

  /** The source line `GetIChatClientString` generates for a client. */
  function ClientCode(baseUrl: string, modelId: string): string {
    "new MCPChatClient(\"" + baseUrl + "\", \"" + modelId + "\")"
  }

  /** `GetIChatClientString`: the constructor call for a URL that parses, whatever its scheme, else a comment. */
  function GetIChatClientString(url: string): string {
    match ParseUri(url)
    case None => "// Invalid MCP URL format: " + url
    case Some(u) => ClientCode("http://" + u.authority, TrimStart(u.pathAndQuery, '/'))
  }

  /** For an `mcp://` URL, the generated code constructs exactly the client `GetIChatClient` returns. */
  lemma ClientStringAgrees(url: string)
    requires GetIChatClient(url).Some?
    ensures GetIChatClientString(url)
         == ClientCode(GetIChatClient(url).value.baseUrl, GetIChatClient(url).value.modelId)
  {
  }

  /** `mcp://<authority><path>` parses back into its authority and path. */
  lemma McpUrlParses(authority: string, path: string)
    requires IsAuthority(authority)
    requires |path| > 0 && path[0] == '/' && '#' !in path
    ensures ParseUri(McpUrlPrefix + authority + path) == Some(Uri("mcp", authority, path))
  {
    McpIsScheme();
    ParseSchemeAuthority("mcp", authority, path);
    McpPrefixSplit(authority + path);
    assert McpUrlPrefix + authority + path == McpUrlPrefix + (authority + path);
    assert "mcp" + "://" + authority + path == "mcp" + "://" + (authority + path);
  }

  lemma McpIsScheme()
    ensures IsScheme("mcp")
  {
    assert forall i | 0 <= i < 3 :: IsSchemeChar("mcp"[i]);
  }

  lemma McpPrefixSplit(rest: string)
    ensures McpUrlPrefix + rest == "mcp" + "://" + rest
  {
  }

  /**
   * A discovered model's URL round-trips: it is an `mcp://` URL whose
   * client talks to `http://` plus the endpoint's authority, with model id
   * "model".
   */
  lemma DiscoveredRoundTrip(endpoint: string, u: Uri, hash: string, themeSuffix: string)
    requires ParseUri(endpoint) == Some(u)
    ensures var url := DiscoveredModel(endpoint, u, hash, themeSuffix).url;
      && GetIChatClient(url) == Some(McpChat.Client("http://" + u.authority, "model"))
      && GetIChatClientString(url) == ClientCode("http://" + u.authority, "model")
  {
    assert WellFormed(u);
    McpClientFor(u.authority, "/model");
    McpUrlParses(u.authority, "/model");
    ModelPathTrimmed();
  }

  lemma PrefixedStartsWith(authority: string, path: string)
    ensures StartsWith(McpUrlPrefix + authority + path, McpUrlPrefix)
  {
    assert (McpUrlPrefix + authority + path)[..|McpUrlPrefix|] == McpUrlPrefix;
  }

  lemma ModelPathTrimmed()
    ensures TrimStart("/model", '/') == "model"
  {
    assert "/model"[1..] == "model";
  }

  /** For `mcp://<authority><path>` the client is for `http://<authority>` and the path without its leading '/'. */
  lemma McpClientFor(authority: string, path: string)
    requires IsAuthority(authority)
    requires |path| > 0 && path[0] == '/' && '#' !in path
    ensures GetIChatClient(McpUrlPrefix + authority + path)
         == Some(McpChat.Client("http://" + authority, TrimStart(path, '/')))
  {
    var url := McpUrlPrefix + authority + path;
    McpUrlParses(authority, path);
    PrefixedStartsWith(authority, path);
    ClientFromParsed(url, Uri("mcp", authority, path));
  }

  /** A URL with the `mcp://` prefix that parses gives the client for its authority and path. */
  lemma ClientFromParsed(url: string, u: Uri)
    requires StartsWith(url, McpUrlPrefix) && ParseUri(url) == Some(u)
    ensures GetIChatClient(url) == Some(McpChat.Client("http://" + u.authority, TrimStart(u.pathAndQuery, '/')))
  {
    var r := GetIChatClient(url);
    assert r.Some?;
    assert r.value.baseUrl == "http://" + u.authority;
    assert r.value.modelId == TrimStart(u.pathAndQuery, '/');
  }

  /** `GetDetailsUrl`. */
  function GetDetailsUrl(details: ModelDetails): (r: string)
    ensures StartsWith(r, "https://modelcontextprotocol.io/docs/models/")
    ensures r[|"https://modelcontextprotocol.io/docs/models/"|..] == details.name
  {
    "https://modelcontextprotocol.io/docs/models/" + details.name
  }

  /** The probing loop of `GetModelsAsync`: each endpoint in turn, keeping the descriptors of those that answered. */
  method ProbeAll(endpoints: seq<string>, timeout: int, reachable: string -> bool, hash: string -> string,
                  themeSuffix: string) returns (models: seq<ModelDetails>)
    ensures models == Discover(endpoints, timeout, reachable, hash, themeSuffix)
  {
    models := [];
    for i := 0 to |endpoints|
      invariant models == Discover(endpoints[..i], timeout, reachable, hash, themeSuffix)
    {
      assert endpoints[..i + 1][..i] == endpoints[..i];
      var found := Probe(endpoints[i], timeout, reachable, hash, themeSuffix);
      if found.Some? {
        models := models + [found.value];
      }
    }
    assert endpoints[..|endpoints|] == endpoints;
  }

  /** The provider instance and its discovery cache. */
  class McpModelProvider {
    var cached: Option<seq<ModelDetails>>

    /** Only a non-empty list is ever cached. */
    ghost predicate Valid()
      reads this
    {
      cached.Some? ==> |cached.value| > 0
    }

    constructor ()
      ensures Valid() && cached == None
    {
      cached := None;
    }

    /**
     * `GetModelsAsync`. With `ignoreCached` the cache is dropped first. A
     * non-empty cached list is returned without probing. When MCP is
     * disabled the result is empty and the cache is left as it is.
     * Otherwise every distinct candidate is probed in turn, a failing probe
     * adding nothing, the placeholder stands in when nothing answered, and
     * the result is cached.
     */
    method GetModels(ignoreCached: bool, settings: Configuration.Settings, reachable: string -> bool,
                     hash: string -> string, themeSuffix: string) returns (models: seq<ModelDetails>)
      requires Valid()
      modifies this
      ensures Valid()
      ensures var start := if ignoreCached then None else old(cached);
        && (start.Some? ==> models == start.value && cached == start)
        && (start.None? && !Configuration.GetBool(settings, "mcp_enabled", true) ==> models == [] && cached == None)
        && (start.None? && Configuration.GetBool(settings, "mcp_enabled", true) ==>
              models == DiscoveryResult(settings, reachable, hash, themeSuffix) && cached == Some(models))
    {
      if ignoreCached {
        cached := None;
      }
      if cached.Some? && |cached.value| > 0 {
        return cached.value;
      }
      var endpoints := Endpoints(settings);
      var timeout := Timeout(settings);
      var enabled := Configuration.GetBool(settings, "mcp_enabled", true);
      if !enabled {
        return [];
      }
      models := ProbeAll(endpoints, timeout, reachable, hash, themeSuffix);
      if |models| == 0 {
        models := [Placeholder(themeSuffix)];
      }
      cached := Some(models);
    }
  }
}
