/**
 * The Omniparser model provider (`OmniparserModelProvider`): a stub whose
 * discovery always comes back empty, which never hands out a chat client,
 * and whose generated client code is a placeholder comment naming the
 * last '/'-separated segment of the model URL.
 */
module Omniparser {
  import opened Options
  import opened Strings
  import McpChat
  import opened ModelCatalog

  const ProviderName := "Omniparser"
  const ProviderDescription := "Document parsing and analysis via Omniparser"
  const ProviderUrl := "http://localhost:8001/"
  const NugetPackageReferences := ["Microsoft.Extensions.AI"]
  const ClientNamespace := "Omniparser"
  const DetailsUrlBase := "https://omniparser.docs.io/models/"
  const ClientStringPrefix := "// TODO: Implement Omniparser client instantiation for model: "

  /** The provider's icon file for a theme suffix. */
  function ProviderIcon(themeSuffix: string): string {
    Icon(ProviderName, themeSuffix)
  }

  /**
   * `GetIChatClient`: no client for any URL. `McpChat.Client` stands in for
   * the `IChatClient` the provider would return.
   */
  function GetIChatClient(url: string): (r: Option<McpChat.Client>)
    ensures r.None?
  {
    None
  }

  /**
   * `GetIChatClientString`: a comment naming the model, which is the last
   * '/'-separated segment of the URL: a suffix of the URL that holds no '/'
   * and is either the whole URL or follows a '/'.
   */
  function GetIChatClientString(url: string): (r: string)
    ensures StartsWith(r, ClientStringPrefix)
    ensures var id := r[|ClientStringPrefix|..];
      && '/' !in id
      && |id| <= |url| && url[|url| - |id|..] == id
      && (|id| < |url| ==> url[|url| - |id| - 1] == '/')
  {
    var id := LastPiece(url, '/');
    LastPieceIsSuffix(url, '/');
    var r := ClientStringPrefix + id;
    assert r[..|ClientStringPrefix|] == ClientStringPrefix;
    assert r[|ClientStringPrefix|..] == id;
    r
  }

  /** A URL without '/' is named whole. */
  lemma ClientStringWithoutSlash(url: string)
    requires '/' !in url
    ensures GetIChatClientString(url) == ClientStringPrefix + url
  {
    LastPieceWithout(url, '/');
  }

  /** The segment after the URL's last '/' names the model; a URL ending in '/' names the empty model. */
  lemma ClientStringAfterSlash(head: string, id: string)
    requires '/' !in id
    ensures GetIChatClientString(head + "/" + id) == ClientStringPrefix + id
  {
    assert head + "/" + id == head + ['/'] + id;
    LastPieceAfter(head, id, '/');
  }

  /** `GetDetailsUrl`: the documentation page named after the model. */
  function GetDetailsUrl(details: ModelDetails): (r: string)
    ensures StartsWith(r, DetailsUrlBase)
    ensures r[|DetailsUrlBase|..] == details.name
  {
    var r := DetailsUrlBase + details.name;
    assert r[..|DetailsUrlBase|] == DetailsUrlBase;
    r
  }

  /** The provider instance and its model cache. */
  class OmniparserModelProvider {
    var cached: Option<seq<ModelDetails>>

    /** Only the empty list is ever cached. */
    ghost predicate Valid()
      reads this
    {
      cached.Some? ==> cached.value == []
    }

    constructor ()
      ensures Valid() && cached == None
    {
      cached := None;
    }

    /**
     * `GetModelsAsync`. With `ignoreCached` the cache is dropped first. The
     * cache holds at most the empty list, so the early return for a
     * non-empty cached list is never taken: every call caches and returns
     * the empty list.
     */
    method GetModels(ignoreCached: bool) returns (models: seq<ModelDetails>)
      requires Valid()
      modifies this
      ensures Valid()
      ensures models == [] && cached == Some([])
    {
      if ignoreCached {
        cached := None;
      }
      if cached.Some? && |cached.value| > 0 {
        assert false;
      }
      cached := Some([]);
      models := [];
    }
  }
}
