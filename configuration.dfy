/**
 * The configuration store (`ProductionConfigurationManager`): a fixed table
 * of defaults, a cached settings dictionary that loading, saving and setting
 * replace, typed lookups that fall back to the caller's default, and a
 * validator that sorts range and URL checks into errors and warnings.
 *
 * The storage file is an abstract input (`ConfigFile`), and a save either
 * succeeds or fails (`writeSucceeds`).
 */
module Configuration {
  import opened Options
  import opened Strings
  import Uris

  /** A stored setting: the boxed values of the default table and of the JSON file. */
  datatype Value = BoolValue(b: bool) | IntValue(i: int) | TextValue(s: string) | RealValue(r: real) | NullValue

  /** The type a caller asks `GetSettingAsync<T>` for. */
  datatype Kind = BoolKind | IntKind | TextKind

  type Settings = map<string, Value>

  predicate HasKind(v: Value, k: Kind) {
    match k
    case BoolKind => v.BoolValue?
    case IntKind => v.IntValue? && IsInt32(v.i)
    case TextKind => v.TextValue?
  }

  predicate IsInt32(i: int) {
    -0x8000_0000 <= i < 0x8000_0000
  }

  const DefaultSettings: Settings := map[
    "mcp_enabled" := BoolValue(true),
    "mcp_server_url" := TextValue("http://localhost:8000"),
    "mcp_auto_discover" := BoolValue(true),
    "mcp_timeout_seconds" := IntValue(5),
    "local_server_enabled" := BoolValue(false),
    "local_server_port" := IntValue(11434),
    "local_server_auto_start" := BoolValue(false),
    "nlweb_enabled" := BoolValue(true),
    "nlweb_temperature" := RealValue(0.3),
    "nlweb_auto_suggest" := BoolValue(true),
    "telemetry_enabled" := BoolValue(true),
    "error_reporting_enabled" := BoolValue(true),
    "performance_monitoring_enabled" := BoolValue(false),
    "logging_level" := TextValue("Information"),
    "allow_external_connections" := BoolValue(false),
    "require_authentication" := BoolValue(false),
    "max_concurrent_requests" := IntValue(10),
    "cache_enabled" := BoolValue(true),
    "cache_size_mb" := IntValue(100),
    "request_timeout_seconds" := IntValue(30)
  ]

  /**
   * The conversion `GetSettingAsync<T>` attempts on a stored value: a value
   * of the requested kind converts to itself (an integer only within 32 bits);
   * everything else, JSON null included, fails and the caller's default is used.
   */
  function Convert(v: Value, k: Kind): (r: Option<Value>)
    ensures r.Some? <==> HasKind(v, k)
    ensures r.Some? ==> r.value == v
  {
    if HasKind(v, k) then Some(v) else None
  }

  /** `GetSettingAsync<T>(key, default)`: the stored value when present and convertible, else the default. */
  function Lookup(settings: Settings, key: string, k: Kind, default: Value): (r: Value)
    requires HasKind(default, k)
    ensures HasKind(r, k)
  {
    if key in settings && Convert(settings[key], k).Some? then settings[key] else default
  }

  /** A present, convertible value is returned as stored. */
  lemma LookupStored(settings: Settings, key: string, k: Kind, default: Value)
    requires HasKind(default, k)
    requires key in settings && HasKind(settings[key], k)
    ensures Lookup(settings, key, k, default) == settings[key]
  {
  }

  /** A missing or unconvertible key yields exactly the caller's default. */
  lemma LookupFallback(settings: Settings, key: string, k: Kind, default: Value)
    requires HasKind(default, k)
    requires key !in settings || !HasKind(settings[key], k)
    ensures Lookup(settings, key, k, default) == default
  {
  }

  function GetBool(settings: Settings, key: string, default: bool): bool {
    Lookup(settings, key, BoolKind, BoolValue(default)).b
  }

  function GetInt(settings: Settings, key: string, default: int): int
    requires IsInt32(default)
  {
    Lookup(settings, key, IntKind, IntValue(default)).i
  }

  function GetString(settings: Settings, key: string, default: string): string {
    Lookup(settings, key, TextKind, TextValue(default)).s
  }

  /** What reading the configuration file gives. */
  datatype ConfigFile =
    | Missing                  // no darbot-config.json
    | DeserializesToNull       // the file holds JSON null
    | Parsed(values: Settings) // the file holds a JSON object
    | Unreadable               // reading or deserialising throws

  /** The settings a first load produces: defaults overlaid with the file's values. */
  function Loaded(file: ConfigFile): Settings {
    if file.Parsed? then DefaultSettings + file.values else DefaultSettings
  }

  /** Every default key survives a load, the file's value wins on a collision, other defaults stay. */
  lemma LoadedOverlay(file: ConfigFile, key: string)
    ensures DefaultSettings.Keys <= Loaded(file).Keys
    ensures file.Parsed? && key in file.values ==> Loaded(file)[key] == file.values[key]
    ensures key in DefaultSettings && !(file.Parsed? && key in file.values)
            ==> Loaded(file)[key] == DefaultSettings[key]
    ensures key in Loaded(file) ==> key in DefaultSettings || (file.Parsed? && key in file.values)
  {
  }

  datatype ValidationResult = ValidationResult(isValid: bool, errors: seq<string>, warnings: seq<string>)

  const InvalidMcpUrl := "Invalid MCP server URL"
  const PortOutOfRange := "Local server port must be between 1024 and 65535"
  const CacheSizeAdvice := "Cache size should be between 10MB and 1000MB for optimal performance"
  const MaxRequestsAdvice := "Max concurrent requests should be between 1 and 100"

  /** `ValidateConfigurationAsync` on loaded settings. Lookups use the type's default (false, 0, null). */
  function Validate(s: Settings): ValidationResult {
    var mcpUrl := GetString(s, "mcp_server_url", "");
    var port := GetInt(s, "local_server_port", 0);
    var cacheSize := GetInt(s, "cache_size_mb", 0);
    var maxRequests := GetInt(s, "max_concurrent_requests", 0);
    var errors :=
      (if GetBool(s, "mcp_enabled", false) && (mcpUrl == "" || !Uris.IsAbsoluteUri(mcpUrl)) then [InvalidMcpUrl] else [])
      + (if GetBool(s, "local_server_enabled", false) && (port < 1024 || port > 65535) then [PortOutOfRange] else []);
    var warnings :=
      (if cacheSize < 10 || cacheSize > 1000 then [CacheSizeAdvice] else [])
      + (if maxRequests < 1 || maxRequests > 100 then [MaxRequestsAdvice] else []);
    ValidationResult(|errors| == 0, errors, warnings)
  }

  /**
   * Validation sorts each check as the source does: the URL check is an error
   * exactly when MCP is enabled, the port check exactly when the local server
   * is enabled, the two range checks are only ever warnings, and the result
   * is valid exactly when there is no error.
   */
  lemma ValidateClassifies(s: Settings)
    ensures Validate(s).isValid <==> |Validate(s).errors| == 0
    ensures InvalidMcpUrl in Validate(s).errors
      <==> GetBool(s, "mcp_enabled", false) && !Uris.IsAbsoluteUri(GetString(s, "mcp_server_url", ""))
    ensures PortOutOfRange in Validate(s).errors
      <==> GetBool(s, "local_server_enabled", false)
           && !(1024 <= GetInt(s, "local_server_port", 0) <= 65535)
    ensures CacheSizeAdvice in Validate(s).warnings <==> !(10 <= GetInt(s, "cache_size_mb", 0) <= 1000)
    ensures MaxRequestsAdvice in Validate(s).warnings
      <==> !(1 <= GetInt(s, "max_concurrent_requests", 0) <= 100)
    ensures forall e :: e in Validate(s).errors ==> e == InvalidMcpUrl || e == PortOutOfRange
    ensures forall w :: w in Validate(s).warnings ==> w == CacheSizeAdvice || w == MaxRequestsAdvice
  {
    assert !Uris.IsAbsoluteUri("") by {
      assert PrefixLen("", {':'}) == 0;
    }
  }

  /** The values the validator reads from the default table. */
  lemma DefaultEntries()
    ensures GetBool(DefaultSettings, "mcp_enabled", false)
    ensures GetString(DefaultSettings, "mcp_server_url", "") == "http://localhost:8000"
    ensures !GetBool(DefaultSettings, "local_server_enabled", false)
    ensures GetInt(DefaultSettings, "cache_size_mb", 0) == 100
    ensures GetInt(DefaultSettings, "max_concurrent_requests", 0) == 10
  {
  }

  /** Settings whose four checks all pass validate with no error and no warning. */
  lemma ValidateClean(s: Settings)
    requires GetBool(s, "mcp_enabled", false) ==> Uris.IsAbsoluteUri(GetString(s, "mcp_server_url", ""))
    requires GetBool(s, "local_server_enabled", false) ==> 1024 <= GetInt(s, "local_server_port", 0) <= 65535
    requires 10 <= GetInt(s, "cache_size_mb", 0) <= 1000
    requires 1 <= GetInt(s, "max_concurrent_requests", 0) <= 100
    ensures Validate(s) == ValidationResult(true, [], [])
  {
    ValidateClassifies(s);
  }

  lemma DefaultAuthority()
    ensures Uris.IsAuthority("localhost:8000")
  {
    assert ParseNat("8000") == 8000 by {
      assert "8000"[..3] == "800" && "800"[..2] == "80" && "80"[..1] == "8" && "8"[..0] == "";
    }
    Uris.HostPortAuthority("localhost", "8000");
    assert "localhost" + [':'] + "8000" == "localhost:8000";
  }

  /** The default MCP server URL is an absolute URI. */
  lemma DefaultUrlAbsolute()
    ensures Uris.IsAbsoluteUri("http://localhost:8000")
  {
    assert "http://localhost:8000" == "http" + "://" + "localhost:8000" + "";
    assert Uris.IsScheme("http") by {
      forall i | 0 <= i < 4 ensures Uris.IsSchemeChar("http"[i]) {
      }
    }
    DefaultAuthority();
    Uris.ParseSchemeAuthority("http", "localhost:8000", "");
  }

  /** The default table is production-ready: no error and no warning. */
  lemma DefaultsValidate()
    ensures Validate(DefaultSettings) == ValidationResult(true, [], [])
  {
    DefaultEntries();
    DefaultUrlAbsolute();
    ValidateClean(DefaultSettings);
  }

  /** The process-wide store: `_currentSettings`, None until the first load or save. */
  class ConfigurationStore {
    var current: Option<Settings>

    constructor ()
      ensures current == None
    {
      current := None;
    }

    /**
     * `LoadSettingsAsync`: the cached dictionary when there is one, without
     * reading the file; otherwise the defaults overlaid with the file's
     * values, or a copy of the defaults when the file is missing, holds null
     * or cannot be read. The result becomes the cache.
     */
    method LoadSettings(file: ConfigFile) returns (settings: Settings)
      modifies this
      ensures old(current).Some? ==> settings == old(current).value
      ensures old(current).None? ==> settings == Loaded(file)
      ensures current == Some(settings)
    {
      if current.Some? {
        return current.value;
      }
      if file.Parsed? {
        var merged := DefaultSettings;
        var pending := file.values.Keys;
        while pending != {}
          invariant pending <= file.values.Keys
          invariant merged.Keys == DefaultSettings.Keys + (file.values.Keys - pending)
          invariant forall k :: k in merged ==>
            merged[k] == if k in file.values && k !in pending then file.values[k] else DefaultSettings[k]
          decreases pending
        {
          var key :| key in pending;
          merged := merged[key := file.values[key]];
          pending := pending - {key};
        }
        assert merged == DefaultSettings + file.values;
        current := Some(merged);
        return merged;
      }
      current := Some(DefaultSettings);
      return DefaultSettings;
    }

    /** `SaveSettingsAsync`: on a successful write the settings become the cache as given, with no merging; a failed write rethrows and leaves the cache. */
    method SaveSettings(settings: Settings, writeSucceeds: bool) returns (ok: bool)
      modifies this
      ensures ok == writeSucceeds
      ensures ok ==> current == Some(settings)
      ensures !ok ==> current == old(current)
    {
      if !writeSucceeds {
        return false;
      }
      current := Some(settings);
      return true;
    }

    /** `GetSettingAsync<T>`: loads (caching) and looks the key up; it never fails. */
    method GetSetting(key: string, k: Kind, default: Value, file: ConfigFile) returns (v: Value)
      requires HasKind(default, k)
      modifies this
      ensures current.Some? && v == Lookup(current.value, key, k, default)
      ensures old(current).Some? ==> current == old(current)
      ensures old(current).None? ==> current == Some(Loaded(file))
    {
      var settings := LoadSettings(file);
      v := Lookup(settings, key, k, default);
    }

    /**
     * `SetSettingAsync`: the loaded dictionary is changed in place at `key`,
     * so the cache holds the new value even when the save then fails.
     */
    method SetSetting(key: string, value: Value, file: ConfigFile, writeSucceeds: bool) returns (ok: bool)
      modifies this
      ensures ok == writeSucceeds
      ensures old(current).Some? ==> current == Some(old(current).value[key := value])
      ensures old(current).None? ==> current == Some(Loaded(file)[key := value])
    {
      var settings := LoadSettings(file);
      settings := settings[key := value];
      current := Some(settings);
      ok := SaveSettings(settings, writeSucceeds);
    }

    /** `ValidateConfigurationAsync`: loads, then validates what was loaded. */
    method ValidateConfiguration(file: ConfigFile) returns (r: ValidationResult)
      modifies this
      ensures current.Some? && r == Validate(current.value)
      ensures old(current).Some? ==> current == old(current)
      ensures old(current).None? ==> current == Some(Loaded(file))
    {
      var settings := LoadSettings(file);
      r := Validate(settings);
    }

    /** `ResetToDefaultsAsync`: saves a copy of the default table. */
    method ResetToDefaults(writeSucceeds: bool) returns (ok: bool)
      modifies this
      ensures ok == writeSucceeds
      ensures ok ==> current == Some(DefaultSettings)
      ensures !ok ==> current == old(current)
    {
      ok := SaveSettings(DefaultSettings, writeSucceeds);
    }
  }

  /** After setting a key, looking it up gives the new value when it has the asked kind. */
  lemma {:induction false} LookupAfterSet(s: Settings, key: string, value: Value, k: Kind, default: Value)
    requires HasKind(default, k)
    ensures HasKind(value, k) ==> Lookup(s[key := value], key, k, default) == value
    ensures !HasKind(value, k) ==> Lookup(s[key := value], key, k, default) == default
  {
  }

  /** Setting one key leaves the lookup of every other key as it was. */
  lemma LookupOtherAfterSet(s: Settings, key: string, value: Value, other: string, k: Kind, default: Value)
    requires HasKind(default, k) && other != key
    ensures Lookup(s[key := value], other, k, default) == Lookup(s, other, k, default)
  {
  }
}
