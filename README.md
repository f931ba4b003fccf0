# Darbot Dev gallery core, modelled in Dafny

This project models the runtime services of the Darbot Dev fork of the AI Dev
Gallery:

- **The production logger** (`ProductionLogger`). It filters by level and keeps
  a FIFO queue capped at 1000 entries. It drains the queue into one JSON line
  per entry in `darbot-debug.log`, rotates that file through `.1` to `.4` once
  it passes 10 MB, and gates telemetry on a setting.
- **The configuration manager** (`ProductionConfigurationManager`). It holds a
  table of twenty defaults and a cached settings dictionary. Loading overlays
  the settings file on the defaults. Typed lookups fall back to the caller's
  default. Validation sorts its four checks into errors and warnings.
- **The local model server** (`LocalModelServer`). It routes Ollama-style and
  OpenAI-style paths to fixed JSON records, and maps exceptions to 500
  answers. Its lifecycle is start, stop and dispose.
- **The MCP model provider** (`MCPModelProvider`). It probes a deduplicated
  list of candidate endpoints and caches what answered, or a placeholder when
  nothing did. It maps `mcp://authority/model` URLs to chat clients.
- **The MCP chat client** (`MCPChatClient`). It builds the completion request
  and binds the server's JSON answer to its response records. Every outcome,
  failures included, becomes exactly one assistant message.
- **The NLWeb helpers** (`NLWebIntegration`). These are keyword-driven
  suggestions, the guards and error texts of query processing, and the
  fall-backs of converting a response to prose.
- **The Omniparser provider** (`OmniparserModelProvider`). It is a stub: it
  discovers nothing, gives no client, and generates a placeholder comment.

The modules are `Logging`, `Configuration`, `LocalServer`, `McpProvider`,
`McpChat`, `NLWeb` and `Omniparser`. Beside them:

- `ModelCatalog` holds the model descriptor both providers return.
- `Uris` is a small absolute-URI splitter that stands in for `System.Uri`.
- `Strings` and `Options` are shared helpers.

The state the source mutates is modelled by classes:

- `ProductionLogger` owns the queue, the primary log, its rotated generations
  and the telemetry log.
- `ConfigurationStore` owns the cached settings.
- `LocalModelServer` owns the running, listening, cancelled and closed flags.
- `McpModelProvider` and `OmniparserModelProvider` own their discovery caches.

The other parts are functions over datatypes.

Inputs stand in for everything outside the process:

- The contents of files are strings held by the logger.
- The settings file is a `ConfigFile` value.
- Whether a write succeeds is a boolean.
- The clock readings are strings.
- For the network, a `reachable` predicate decides which probe URLs answer.
  The server's reply is a JSON value, or the kind of failure.
- For the language model, an outcome gives its reply text or the exception it
  threw.
- `GetHashCode`, the session id and the theme's icon suffix are parameters.

## Model

| member | source | states |
|---|---|---|
| Logging.Ordinal | AIDevGallery/Utils/ProductionLogger.cs:24-32 | the six levels carry the numeric values 0 to 5 |
| Logging.LevelsTotallyOrdered | AIDevGallery/Utils/ProductionLogger.cs:24-32 | no two levels share a value, and any two levels are equal or one is strictly below the other |
| Logging.ParseLevel | AIDevGallery/Utils/ProductionLogger.cs:50-53 | a parsed level is the one whose name was given |
| Logging.ParseLevelName | AIDevGallery/Utils/ProductionLogger.cs:50-53 | every level's name parses back to that level |
| Logging.Record | AIDevGallery/Utils/ProductionLogger.cs:228-236 | the JSON record of an entry never contains a line break |
| Logging.Records | AIDevGallery/Utils/ProductionLogger.cs:225-238 | a batch has exactly one record per entry |
| Logging.RecordAt | AIDevGallery/Utils/ProductionLogger.cs:225-238 | the i-th record of a batch is the record of the i-th drained entry |
| Logging.RecordsOneLine | AIDevGallery/Utils/ProductionLogger.cs:225-238 | no record of a batch spans more than one line |
| Logging.FormatBatch | AIDevGallery/Utils/ProductionLogger.cs:225-240 | the loop builds the records joined by and ended with "\n", and that text splits at '\n' into exactly the entries' records in order, then an empty piece |
| Logging.BatchLines | AIDevGallery/Utils/ProductionLogger.cs:240 | the appended text of a non-empty batch reads back as one line per entry, in dequeue order |
| Logging.EnqueueEffect | AIDevGallery/Utils/ProductionLogger.cs:191-200 | enqueuing keeps at most 1000 entries with the new one last; below capacity it only appends, and at capacity it drops exactly the oldest |
| Logging.ShiftedAt | AIDevGallery/Utils/ProductionLogger.cs:294-308 | before rotation step i, generation i is untouched and generation i+1 is free |
| Logging.ShiftSkip | AIDevGallery/Utils/ProductionLogger.cs:296-297 | a missing generation makes its step change nothing |
| Logging.ShiftDrop | AIDevGallery/Utils/ProductionLogger.cs:299-302 | the step at generation 4 deletes it |
| Logging.ShiftMove | AIDevGallery/Utils/ProductionLogger.cs:303-306 | the step at generation i below 4 renames it to i+1 |
| Logging.RotatedBounded | AIDevGallery/Utils/ProductionLogger.cs:294-310 | after rotation the generations stay within 1..4, `.1` is the old primary, `.k+1` holds the old `.k`, and `.k` (k in 2..4) exists exactly when `.k-1` existed before |
| Logging.ProductionLogger.constructor | AIDevGallery/Utils/ProductionLogger.cs:34-37 | a fresh logger has minimum level Information, is not initialised and has an empty queue |
| Logging.ProductionLogger.LogMessage | AIDevGallery/Utils/ProductionLogger.cs:164-204 | a message below the minimum level leaves the queue as it was; otherwise its entry is appended and the queue is evicted from the front down to 1000 |
| Logging.ProductionLogger.DrainQueue | AIDevGallery/Utils/ProductionLogger.cs:210-216 | dequeuing returns every queued entry in FIFO order and leaves the queue empty |
| Logging.ProductionLogger.WriteQueuedLogs | AIDevGallery/Utils/ProductionLogger.cs:206-247 | the queue is always emptied; with entries and a successful write the primary log grows by exactly the batch text; otherwise the log is unchanged |
| Logging.ProductionLogger.RotateLogsIfNeeded | AIDevGallery/Utils/ProductionLogger.cs:281-318 | a primary log over 10 MB becomes `.1` with older generations shifted up and `.4` dropped; otherwise the files are unchanged |
| Logging.ProductionLogger.Initialize | AIDevGallery/Utils/ProductionLogger.cs:42-65 | once initialised it changes nothing; otherwise the configured level is adopted when it parses, the logs are rotated if needed, and the success message is logged under the new level |
| Logging.ProductionLogger.LogTelemetry | AIDevGallery/Utils/ProductionLogger.cs:137-162 | disabled telemetry changes nothing; enabled telemetry logs "TELEMETRY: event" and, on a successful write, appends one record line carrying the version "0.3.11-alpha" |
| Logging.TelemetryLine | AIDevGallery/Utils/ProductionLogger.cs:144-151 | the serialised telemetry record, properties included, holds no line break, so each record is one line of the telemetry file |
| Logging.ProductionLogger.WriteTelemetryData | AIDevGallery/Utils/ProductionLogger.cs:265-279 | a successful write appends the serialised record and a line break; a failed one leaves the telemetry log as it was |
| Configuration.Lookup | AIDevGallery/Utils/ProductionConfigurationManager.cs:127-155 | a lookup always yields a value of the requested kind |
| Configuration.LookupStored | AIDevGallery/Utils/ProductionConfigurationManager.cs:133-143 | a present value of the requested kind is returned as stored |
| Configuration.LookupFallback | AIDevGallery/Utils/ProductionConfigurationManager.cs:149-154 | a missing or unconvertible key yields exactly the caller's default |
| Configuration.LoadedOverlay | AIDevGallery/Utils/ProductionConfigurationManager.cs:75-94 | a load keeps every default key, the file's value wins on a collision, other defaults stay, and no key comes from anywhere else |
| Configuration.ValidateClassifies | AIDevGallery/Utils/ProductionConfigurationManager.cs:178-230 | the URL error appears exactly when MCP is on and the URL is not absolute, the port error exactly when the local server is on and the port is outside 1024..65535, the two range checks are only warnings, and the result is valid exactly when there is no error |
| Configuration.DefaultEntries | AIDevGallery/Utils/ProductionConfigurationManager.cs:18-51 | the defaults enable MCP at "http://localhost:8000", disable the local server, and set the cache to 100 and the request limit to 10 |
| Configuration.ValidateClean | AIDevGallery/Utils/ProductionConfigurationManager.cs:178-230 | settings that pass all four checks validate with no error and no warning |
| Configuration.DefaultsValidate | AIDevGallery/Utils/ProductionConfigurationManager.cs:18-51 | the default table validates with no error and no warning |
| Configuration.ConfigurationStore.constructor | AIDevGallery/Utils/ProductionConfigurationManager.cs:53 | the store starts with no cached settings |
| Configuration.ConfigurationStore.LoadSettings | AIDevGallery/Utils/ProductionConfigurationManager.cs:58-95 | a cached dictionary is returned without reading the file; otherwise the loop builds the defaults overlaid with the file, or the defaults alone, and the result is cached |
| Configuration.ConfigurationStore.SaveSettings | AIDevGallery/Utils/ProductionConfigurationManager.cs:100-122 | a successful save caches the settings as given; a failed save rethrows and leaves the cache |
| Configuration.ConfigurationStore.GetSetting | AIDevGallery/Utils/ProductionConfigurationManager.cs:127-155 | the result is the lookup in the loaded settings; an existing cache is left as it was and a cold cache is filled from the settings file |
| Configuration.ConfigurationStore.SetSetting | AIDevGallery/Utils/ProductionConfigurationManager.cs:160-173 | the cache holds the new value at the key even when the save then fails |
| Configuration.ConfigurationStore.ValidateConfiguration | AIDevGallery/Utils/ProductionConfigurationManager.cs:178-230 | the result is the validation of the loaded settings; an existing cache is left as it was and a cold cache is filled from the settings file |
| Configuration.ConfigurationStore.ResetToDefaults | AIDevGallery/Utils/ProductionConfigurationManager.cs:235-247 | a successful reset caches the default table; a failed one leaves the cache |
| Configuration.LookupAfterSet | AIDevGallery/Utils/ProductionConfigurationManager.cs:160-166 | after a key is set, reading it gives the new value when it has the asked kind, else the default |
| Configuration.LookupOtherAfterSet | AIDevGallery/Utils/ProductionConfigurationManager.cs:160-166 | setting one key leaves the lookup of every other key unchanged |
| LocalServer.RouteOf | AIDevGallery/Utils/LocalModelServer.cs:110-129 | each handler is chosen exactly for its exact, case-sensitive paths; a null path is not found |
| LocalServer.HandleRequest | AIDevGallery/Utils/LocalModelServer.cs:90-148 | every response carries the three CORS headers and status 200, 404 or 500, and has no body exactly for an OPTIONS request that did not fail |
| LocalServer.OptionsPreflight | AIDevGallery/Utils/LocalModelServer.cs:103-108 | an OPTIONS request on any path answers 200 with no body |
| LocalServer.MethodIgnored | AIDevGallery/Utils/LocalModelServer.cs:103-129 | apart from OPTIONS, the HTTP method never changes the response |
| LocalServer.ModelsListed | AIDevGallery/Utils/LocalModelServer.cs:150-176 | both model-list paths answer 200 with exactly one model, `darbot-dev:latest` |
| LocalServer.ChatAnswered | AIDevGallery/Utils/LocalModelServer.cs:179-214 | both chat paths answer the fixed assistant message with `done` set whatever the request, or 500 with the chat error text |
| LocalServer.VersionAnswered | AIDevGallery/Utils/LocalModelServer.cs:216-226 | the version path answers the fixed version record |
| LocalServer.StatusClassified | AIDevGallery/Utils/LocalModelServer.cs:110-129 | 404 "Not Found" exactly for a path outside the five known ones, and 500 only from a failing chat handler |
| LocalServer.FaultAnswered | AIDevGallery/Utils/LocalModelServer.cs:133-147 | an exception escaping a handler gives 500 with the message for its kind, whatever the request |
| LocalServer.FaultMessagesDistinct | AIDevGallery/Utils/LocalModelServer.cs:133-147 | the three exception kinds give three different messages |
| LocalServer.LocalModelServer.Prefix | AIDevGallery/Utils/LocalModelServer.cs:31 | the listener prefix is `http://localhost:`, then the port in decimal, then a closing '/' |
| LocalServer.LocalModelServer.PrefixPort | AIDevGallery/Utils/LocalModelServer.cs:31 | for a non-negative port the characters between `localhost:` and the closing '/' are digits that read back as the port |
| LocalServer.LocalModelServer.constructor | AIDevGallery/Utils/LocalModelServer.cs:27-33 | a new server keeps its port and is neither running, listening, cancelled nor closed |
| LocalServer.LocalModelServer.Start | AIDevGallery/Utils/LocalModelServer.cs:38-57 | a running server is left alone; otherwise it runs exactly when the listener is open and binds, a failure leaves it stopped, and a restart after Stop runs but does not serve because the token stays cancelled |
| LocalServer.LocalModelServer.Stop | AIDevGallery/Utils/LocalModelServer.cs:59-66 | stopping a running server cancels the token and stops the listener; a stopped server is left alone |
| LocalServer.LocalModelServer.Dispose | AIDevGallery/Utils/LocalModelServer.cs:258-263 | after disposal the server is stopped and its listener closed for good |
| ModelCatalog.PrefixesDisjoint | AIDevGallery/ExternalModelUtils/MCPModelProvider.cs:30 | no URL carries both the `mcp://` and the `omniparser://` prefix |
| McpProvider.Distinct | AIDevGallery/ExternalModelUtils/MCPModelProvider.cs:73 | deduplication yields no repeats, the same members, and keeps the configured URL first |
| McpProvider.FirstIndex | AIDevGallery/ExternalModelUtils/MCPModelProvider.cs:73 | the first occurrence of an element: it is there and nowhere earlier |
| McpProvider.DistinctFirstOccurrences | AIDevGallery/ExternalModelUtils/MCPModelProvider.cs:73 | deduplication lists the endpoints in the order of their first occurrences |
| McpProvider.DistinctIdempotent | AIDevGallery/ExternalModelUtils/MCPModelProvider.cs:73 | a list without repeats is left exactly as it is |
| McpProvider.Probe | AIDevGallery/ExternalModelUtils/MCPModelProvider.cs:75-106 | a probe finds a model only for a valid timeout, an endpoint that parses and a probe URL that answered, and then the model describes that endpoint |
| McpProvider.DiscoverAppend | AIDevGallery/ExternalModelUtils/MCPModelProvider.cs:73-107 | probes are independent: what a list of endpoints yields is what its parts yield, in order |
| McpProvider.DiscoverSound | AIDevGallery/ExternalModelUtils/MCPModelProvider.cs:73-107 | at most one model per endpoint, and every model comes from the probe of a listed endpoint |
| McpProvider.InvalidTimeoutFindsNothing | AIDevGallery/ExternalModelUtils/MCPModelProvider.cs:78 | a timeout the HTTP client rejects makes every probe fail, so nothing is found |
| McpProvider.SlashlessEndpointNeverAnswers | AIDevGallery/ExternalModelUtils/MCPModelProvider.cs:83 | an endpoint `scheme://host:port` without a trailing '/' is probed at an unparsable URL and is never found, whatever the network does |
| McpProvider.DefaultEndpointNeverAnswers | AIDevGallery/ExternalModelUtils/MCPModelProvider.cs:56-62 | the default server URL "http://localhost:8000" is therefore never discovered |
| McpProvider.DiscoveryResult | AIDevGallery/ExternalModelUtils/MCPModelProvider.cs:109-124 | an enabled discovery never yields an empty list |
| McpProvider.DiscoveryProvenance | AIDevGallery/ExternalModelUtils/MCPModelProvider.cs:56-124 | an enabled discovery yields one to four models, each the placeholder or the descriptor of a candidate that parsed and answered |
| McpProvider.DiscoveredFrom | AIDevGallery/ExternalModelUtils/MCPModelProvider.cs:73-107 | every model found among endpoints drawn from the candidates describes a candidate that parsed and answered |
| McpProvider.DistinctBound | AIDevGallery/ExternalModelUtils/MCPModelProvider.cs:73 | deduplication never lengthens the list |
| McpProvider.GetIChatClient | AIDevGallery/ExternalModelUtils/MCPModelProvider.cs:137-166 | a client is made exactly for an `mcp://` URL that parses, for `http://` plus its authority and its path without leading '/' |
| McpProvider.ClientStringAgrees | AIDevGallery/ExternalModelUtils/MCPModelProvider.cs:175-188 | for a URL that gets a client, the generated code constructs that same client |
| McpProvider.DiscoveredRoundTrip | AIDevGallery/ExternalModelUtils/MCPModelProvider.cs:94 | a discovered model's URL gives a client for the endpoint's authority with model id "model", and code that constructs it |
| McpProvider.McpClientFor | AIDevGallery/ExternalModelUtils/MCPModelProvider.cs:144-153 | `mcp://<authority><path>` gives the client for `http://<authority>` and the path without its leading '/' |
| McpProvider.ClientFromParsed | AIDevGallery/ExternalModelUtils/MCPModelProvider.cs:144-153 | an `mcp://` URL that parses gives the client for its parsed authority and path |
| McpProvider.GetDetailsUrl | AIDevGallery/ExternalModelUtils/MCPModelProvider.cs:168-171 | the details page is the MCP documentation base followed by the model's name |
| McpProvider.ProbeAll | AIDevGallery/ExternalModelUtils/MCPModelProvider.cs:73-107 | the loop keeps, in order, exactly the descriptors that discovery yields for the endpoints |
| McpProvider.McpModelProvider.constructor | AIDevGallery/ExternalModelUtils/MCPModelProvider.cs:18 | a new provider has no cached models |
| McpProvider.McpModelProvider.GetModels | AIDevGallery/ExternalModelUtils/MCPModelProvider.cs:36-135 | a non-empty cache is returned unless ignored; disabled MCP returns nothing and caches nothing; otherwise the discovery result is returned and cached |
| McpChat.NewClient | AIDevGallery/ExternalModelUtils/MCPChatClient.cs:26-34 | a null base URL, then a null model id, is refused; otherwise the base URL loses exactly its trailing '/' characters and the model id is kept |
| McpChat.NewClientIdempotent | AIDevGallery/ExternalModelUtils/MCPChatClient.cs:28 | building a client again from a client's base URL changes nothing |
| McpChat.CompletionsUrl | AIDevGallery/ExternalModelUtils/MCPChatClient.cs:52 | requests go to the base URL followed by "/v1/chat/completions" |
| McpChat.CreateRequest | AIDevGallery/ExternalModelUtils/MCPChatClient.cs:182-196 | the request names the client's model, keeps the messages in order with lower-cased roles, defaults `max_tokens` to 2048 and `temperature` to 0.7, and never streams |
| McpChat.RequestRolesLowerCase | AIDevGallery/ExternalModelUtils/MCPChatClient.cs:189 | every role in a request is already lower-case |
| McpChat.MapFinishReason | AIDevGallery/ExternalModelUtils/MCPChatClient.cs:75-80 | Stop exactly for "stop", Length exactly for "length", Unknown for anything else, null included |
| McpChat.MapFinishReasonName | AIDevGallery/ExternalModelUtils/MCPChatClient.cs:75-80 | each finish reason's wire name maps back to it |
| McpChat.Member | AIDevGallery/ExternalModelUtils/MCPChatClient.cs:56 | a member is absent exactly when no name matches, and a found value is that of a member with the name |
| McpChat.BindChoiceList | AIDevGallery/ExternalModelUtils/MCPChatClient.cs:198-212 | a bound choices array has one choice per element, each the binding of its element |
| McpChat.Respond | AIDevGallery/ExternalModelUtils/MCPChatClient.cs:38-132 | every outcome gives one assistant message with the client's model id and the clock's time |
| McpChat.GetResponse | AIDevGallery/ExternalModelUtils/MCPChatClient.cs:38-132 | the corrected behaviour of the MCPChatClient.cs:56 finding (members bound by their OpenAI wire names): every outcome, failures included, gives one assistant message with the client's model id |
| McpChat.FailuresAnswered | AIDevGallery/ExternalModelUtils/MCPChatClient.cs:92-131 | each failure kind gives its fixed text, or its prefix and the exception message, with finish reason Unknown |
| McpChat.KnownReasonFromChoice | AIDevGallery/ExternalModelUtils/MCPChatClient.cs:66-81 | a known finish reason comes only from the first choice of a bound answer |
| McpChat.FirstChoiceAnswered | AIDevGallery/ExternalModelUtils/MCPChatClient.cs:66-81 | a bound answer with choices replies with exactly one assistant message holding the first choice's content (or "No response" when it has none) and that choice's mapped finish reason |
| McpChat.DocumentContentAnswered | AIDevGallery/ExternalModelUtils/MCPChatClient.cs:56-81 | when the document binds, the reply text is the string under the first choice's message content and the finish reason is read from that choice |
| McpChat.EmptyChoicesAnswered | AIDevGallery/ExternalModelUtils/MCPChatClient.cs:84-90 | absent, null or empty choices give "No response from MCP server" with finish reason Unknown |
| McpChat.CompletionIgnoredAsWritten | AIDevGallery/ExternalModelUtils/MCPChatClient.cs:56 | with case-sensitive property names, a standard completion is answered "No response from MCP server" whatever it holds |
| McpChat.CompletionChoiceBinds | AIDevGallery/ExternalModelUtils/MCPChatClient.cs:203-212 | with the wire names, a completion's choice binds its content and finish reason |
| McpChat.CompletionBinds | AIDevGallery/ExternalModelUtils/MCPChatClient.cs:198-212 | with the wire names, a completion binds to a response holding its one choice |
| McpChat.CompletionAnswered | AIDevGallery/ExternalModelUtils/MCPChatClient.cs:66-81 | with the wire names, a completion's content and finish reason reach the caller |
| McpChat.Stream | AIDevGallery/ExternalModelUtils/MCPChatClient.cs:134-157 | streaming gives one update per response message, carrying its text and role and the response's model, time and finish reason |
| McpChat.StreamSingleUpdate | AIDevGallery/ExternalModelUtils/MCPChatClient.cs:144-156 | streaming any outcome gives exactly one assistant update |
| McpChat.GetService | AIDevGallery/ExternalModelUtils/MCPChatClient.cs:172-175 | a service is given exactly for the `HttpClient` type |
| NLWeb.CollectGroups | AIDevGallery/Utils/NLWebIntegration.cs:139-161 | the suggestions are the four keyword tests' lines in their order |
| NLWeb.GenerateWebSuggestions | AIDevGallery/Utils/NLWebIntegration.cs:132-172 | the chain of tests yields the matching groups' lines in order, or the three defaults when none matched |
| NLWeb.MatchCount | AIDevGallery/Utils/NLWebIntegration.cs:139-161 | no more groups match than there are |
| NLWeb.CollectLength | AIDevGallery/Utils/NLWebIntegration.cs:139-161 | each matching two-line group adds exactly two suggestions |
| NLWeb.CollectMembers | AIDevGallery/Utils/NLWebIntegration.cs:139-161 | a line is collected exactly when a matching group holds it |
| NLWeb.SuggestionCount | AIDevGallery/Utils/NLWebIntegration.cs:132-172 | three suggestions when nothing matches, two per matching group otherwise, so never none |
| NLWeb.DefaultsWhenNothingMatches | AIDevGallery/Utils/NLWebIntegration.cs:164-169 | the defaults are given exactly when no group matches |
| NLWeb.GroupSuggested | AIDevGallery/Utils/NLWebIntegration.cs:139-161 | a group's lines are suggested exactly when one of its keywords occurs in the lower-cased query |
| NLWeb.SaidMatchesModelGroup | AIDevGallery/Utils/NLWebIntegration.cs:157 | matching is by substring, so "said" matches the model group through "ai" |
| NLWeb.ProcessQuery | AIDevGallery/Utils/NLWebIntegration.cs:21-127 | success exactly for a non-blank query, a client and a reply; a blank query is refused first, then a missing client; a success carries the query, the reply or "" and the suggestions; a failure carries only an error |
| NLWeb.AnswerHasSuggestions | AIDevGallery/Utils/NLWebIntegration.cs:83-89 | a successful answer carries at least two suggestions |
| NLWeb.ThrownReported | AIDevGallery/Utils/NLWebIntegration.cs:91-126 | a call that threw reports its handler's error text |
| NLWeb.WideSpaceQueryRefused | AIDevGallery/Utils/NLWebIntegration.cs:30-34 | a query made only of ideographic spaces and line or paragraph separators is white space to `string.IsNullOrWhiteSpace`, so it is refused as empty |
| NLWeb.ErrorTextsDistinct | AIDevGallery/Utils/NLWebIntegration.cs:91-126 | different exception kinds never give the same error text |
| NLWeb.ConvertToNaturalLanguage | AIDevGallery/Utils/NLWebIntegration.cs:177-221 | without a client the text is labelled "Response: "; a reply's text is returned, or the structured text when there is none; a failure gives a sentence containing both the query and the structured text |
| Omniparser.GetIChatClient | AIDevGallery/ExternalModelUtils/OmniparserModelProvider.cs:61-66 | no URL ever gets a client |
| Omniparser.GetIChatClientString | AIDevGallery/ExternalModelUtils/OmniparserModelProvider.cs:75-79 | the placeholder comment names the URL's last '/'-separated segment: a '/'-free suffix that is the whole URL or follows a '/' |
| Omniparser.ClientStringWithoutSlash | AIDevGallery/ExternalModelUtils/OmniparserModelProvider.cs:77 | a URL without '/' is named whole |
| Omniparser.ClientStringAfterSlash | AIDevGallery/ExternalModelUtils/OmniparserModelProvider.cs:77 | the text after the last '/' names the model, and a URL ending in '/' names the empty model |
| Omniparser.GetDetailsUrl | AIDevGallery/ExternalModelUtils/OmniparserModelProvider.cs:68-71 | the details page is the Omniparser documentation base followed by the model's name |
| Omniparser.OmniparserModelProvider.constructor | AIDevGallery/ExternalModelUtils/OmniparserModelProvider.cs:17 | a new provider has no cached models |
| Omniparser.OmniparserModelProvider.GetModels | AIDevGallery/ExternalModelUtils/OmniparserModelProvider.cs:35-59 | only the empty list is ever cached, so the early return never fires and every call caches and returns the empty list |

## Left out

- Concurrency is not modelled. That covers the fire-and-forget `Task.Run` calls (the writer after each message, initialisation from the first message, the server's accept loop and per-request handlers), their interleavings, and the lock. Each lock region is one atomic method.
- `Debug.WriteLine` output, the `LogTrace` to `LogCritical` wrappers and `LogPerformance` are left out. `LogPerformance` works with floating-point durations.
- The timestamp format and the exact spelling of `JsonSerializer` output are not modelled. A log record is one single-line JSON object over the entry's fields; a telemetry record is one single-line JSON object whose property values are strings. The serialised exception is its text.
- Logging.ProductionLogger.RotateLogsIfNeeded: the size test counts characters, where the source counts bytes of the file. An I/O failure during rotation is not modelled.
- Logging.ParseLevel: accepts the exact level names only. `Enum.TryParse` also accepts numbers and comma-separated flags.
- The session id (a fresh GUID prefix) and every clock reading are parameters.
- Configuration.Convert: values in the settings file are JSON elements and bind only to their own kind, as modelled. Any value that is not a JSON element, whether an entry of the default table or one stored through `SetSettingAsync`, and is read as another type goes through `Convert.ChangeType` (ProductionConfigurationManager.cs:139-146; for example the default integer port read as a string). That conversion is not modelled: such a read yields the caller's default.
- The settings file's path, its JSON text and the serialisation on save are not modelled; the file is an abstract `ConfigFile`.
- Configuration.Validate: an MCP URL counts as absolute only in the form `scheme://authority…` with a non-empty authority. `Uri.TryCreate(…, UriKind.Absolute, …)` also accepts forms such as `mailto:a@b` or `file:///x`, which the model reports as an invalid MCP server URL.
- Uris: `System.Uri` is a simplified splitter. It does not model IPv6 literals, user information, percent-encoding, scheme-specific rules or case normalisation of the host.
- Strings.ToLower maps ASCII letters only; the culture-invariant mapping of other letters is not modelled.
- The HTTP listener, the sockets and the JSON text of the server's responses are not modelled. A response is a status, headers and a record value.
- McpProvider: `GetHashCode` is an input, so the model's id is "mcp-" plus that text. The model does not derive a concrete client for the placeholder's own URL; McpClientFor covers every well-formed authority and path.
- McpProvider.McpModelProvider.GetModels: the outer catch that returns an empty list is not modelled; nothing inside the modelled body throws. Cancellation is not modelled either.
- McpChat: `Metadata`, `Dispose`, the performance log and the stopwatch are left out. A null element in a choices array is left out of the JSON binding.
- McpChat.Stream: the streaming error handler is not modelled. `GetResponseAsync` never throws, so that handler is unreachable.
- NLWeb: the prompt texts, temperature and token options sent to the model, the messages it receives and the logging are not modelled. A null query is treated like a blank one. The always-empty `Metadata` is left out.
- Omniparser.GetIChatClient: the result type stands in for `IChatClient`, which no model here needs further.
- Omniparser.OmniparserModelProvider.GetModels: the catch returning `[]` is not modelled; nothing in the try block throws.

## Findings

| source | as written | input that shows it | evidently intended | confidence | as-written member | corrected member |
|---|---|---|---|---|---|---|
| AIDevGallery/ExternalModelUtils/MCPChatClient.cs:56 | `JsonSerializer.Deserialize<MCPChatResponse>` runs with no options, so members bind only to the exact, case-sensitive names `Choices`, `Message`, `Content` and `FinishReason` | an OpenAI-style completion `{"choices":[{"message":{"content":"hi"},"finish_reason":"stop"}]}` binds no choices and is answered "No response from MCP server" | bind the standard lower-case and snake-case member names, so the completion's content and finish reason reach the caller | not executed | McpChat.CompletionIgnoredAsWritten | McpChat.CompletionAnswered |
