/**
 * The model descriptor both external providers return (`ModelDetails`),
 * the accelerator tags they use, and the URL schemes that tell their
 * models apart.
 */
module ModelCatalog {
  import opened Strings

  /** The `HardwareAccelerator` members the two providers use; the enum's others are not part of this model. */
  datatype HardwareAccelerator = MCP | OMNIPARSER

  datatype ModelDetails = ModelDetails(
    id: string, name: string, url: string, description: string,
    accelerators: seq<HardwareAccelerator>, size: int, supportedOnQualcomm: bool, icon: string)

  const McpUrlPrefix := "mcp://"
  const OmniparserUrlPrefix := "omniparser://"

  /** No URL carries both providers' prefixes, so the two never claim the same model. */
  lemma PrefixesDisjoint(url: string)
    ensures !(StartsWith(url, McpUrlPrefix) && StartsWith(url, OmniparserUrlPrefix))
  {
    if StartsWith(url, McpUrlPrefix) {
      assert url[0] == McpUrlPrefix[0] == 'm';
    }
  }

  /** `AppUtils.GetThemeAssetSuffix()` is an input: the icon file for a theme suffix. */
  function Icon(provider: string, themeSuffix: string): string {
    provider + themeSuffix + ".svg"
  }
}
