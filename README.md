# AI Assistant Pro and StoryForge Kids: a verified model of the service layer

This project models the service code of two TypeScript apps.

**AI Assistant Pro** (a React Native assistant) has these services:
- a web scraper with a rotating proxy list and a Tor route;
- a simulated Tor session;
- chat-history and settings storage;
- a permission service that merges user flags with system probes;
- the OpenRouter chat client, covering request assembly, reply reading and server-sent-event stream framing.

**StoryForge Kids** has:
- its book, character, chat and marketing storage;
- the Stripe plan catalogue;
- the Stripe webhook, which turns events into changes of a subscription table and a payment table.

Each service that keeps state in memory is a Dafny `class`. Its fields are the source's fields plus one field per persisted key, holding the value stored there. Its methods carry `modifies` frames and state the whole new state. Pure helpers are functions, and the properties that relate several calls are lemmas.

The outside world enters the model only as inputs:
- The HTTP transport is a `Transport` value: a response, or an error message with an optional error body.
- A read or a write of the key-value store either succeeds or throws. That outcome is a `readOk` / `writeOk` flag.
- System permission probes are `Probe` values.
- `JSON.parse` of stream payloads is a table from payload to decoded value. A payload missing from the table throws.
- Clock readings, log ids and random circuit names are parameters.

Modules, one file each:
- `Common`: optional values, results, JavaScript truthiness, decimal rendering and `parseInt`.
- `BoundedLog`: `slice(-n)`.
- `KeyedList`: the `findIndex` / upsert / `filter` / `find` pattern both apps use.
- `Http`: the axios request config, JSON values and the transport outcome.
- One module per service: `WebScraper`, `TorService`, `ChatStorage`, `StoryStorage`, `Permissions`, `OpenRouter`, `StripeProducts` and `StripeWebhook`.

## Model

| member | source | states |
|---|---|---|
| BoundedLog.KeepLast | ai-assistant-pro/src/services/web-scraper.ts:104 | `slice(-n)` keeps min(len, n) elements, and they are the suffix of the list |
| BoundedLog.KeepLastAppend | storyforge-kids/src/storage.ts:141-144 | after push-then-trim, the new entry is last, the older entries keep their order, and the length is min(len+1, n) |
| BoundedLog.KeepLastIncremental | ai-assistant-pro/src/services/permissions.ts:219-224 | trimming after every push gives the same list as trimming the whole history once |
| BoundedLog.KeepLastIdempotent | ai-assistant-pro/src/services/tor-service.ts:93 | trimming an already-trimmed log changes nothing |
| Common.OrElse | storyforge-kids/payments/stripe-webhook.ts:77 | `a \|\| b` on an optional string: a for a present non-empty string, else b |
| Common.NatToString | ai-assistant-pro/src/services/web-scraper.ts:162 | template-literal rendering of a count: at least one digit, all digits, no leading zero |
| Common.NatToStringRoundTrip | ai-assistant-pro/src/services/web-scraper.ts:162 | the rendered digits read back as the number |
| Common.DigitPrefix | storyforge-kids/payments/stripe-webhook.ts:238 | the longest run of leading digits, so parsing stops at the first non-digit |
| Common.ParseInt | storyforge-kids/payments/stripe-webhook.ts:77 | `parseInt` is NaN (None) exactly when no digit follows the optional sign |
| Common.ParseIntRoundTrip | storyforge-kids/payments/stripe-webhook.ts:238 | `parseInt` of an integer's decimal rendering gives the integer back |
| Http.Member | ai-assistant-pro/src/services/openrouter.ts:110 | `j?.name` is defined only on objects that have the field, and there it is that field's value |
| Http.Element | ai-assistant-pro/src/services/openrouter.ts:110 | `j?.[i]` is defined only on arrays with that index, and there it is the element at i |
| Http.Dot | ai-assistant-pro/src/services/web-scraper.ts:253 | plain `.` access throws exactly on `null`, and otherwise agrees with optional chaining |
| Http.StringOr | ai-assistant-pro/src/services/openrouter.ts:129 | `x \|\| fallback` on a JSON value: the string itself when it is a non-empty string, else the fallback |
| Http.WithDefaultHeader | ai-assistant-pro/src/services/web-scraper.ts:140-143 | the caller's headers win, and the default User-Agent fills in only when the caller gives none |
| Http.TimeoutOr | ai-assistant-pro/src/services/web-scraper.ts:144 | `timeout \|\| fallback`: both an absent timeout and a zero timeout fall back |
| KeyedList.FindIndex | ai-assistant-pro/src/services/chat-storage.ts:36 | -1 exactly when no record has the key, otherwise the first index that has it |
| KeyedList.FindFirst | storyforge-kids/src/storage.ts:54 | `find(...) \|\| null`: None exactly when no record matches, otherwise the record at the first matching index |
| KeyedList.Upsert | ai-assistant-pro/src/services/chat-storage.ts:36-42 | the saved record is in the list afterwards, and the length grows by at most one |
| KeyedList.RemoveKey | ai-assistant-pro/src/services/chat-storage.ts:54 | the filter never grows the list and keeps no record with the deleted key |
| KeyedList.KeepKey | storyforge-kids/src/storage.ts:169 | the filter never grows the list and keeps only records with the key |
| KeyedList.UpsertLength | ai-assistant-pro/src/services/chat-storage.ts:36-42 | an existing id keeps the length; a new id is appended at the end |
| KeyedList.UpsertInPlace | ai-assistant-pro/src/services/chat-storage.ts:38-39 | every position other than the replaced one keeps its record |
| KeyedList.FindAfterUpsert | storyforge-kids/src/storage.ts:22-33 | looking a record up right after saving it finds exactly the saved record |
| KeyedList.FindIndexIs | ai-assistant-pro/src/services/chat-storage.ts:36 | a matching index with no earlier match is the one `findIndex` reports |
| KeyedList.FindOtherAfterUpsert | storyforge-kids/src/storage.ts:22-33 | saving a record does not change what is found under any other id |
| KeyedList.UpsertIdempotent | storyforge-kids/src/storage.ts:179-190 | saving the same record twice is the same as saving it once |
| KeyedList.RemoveAfterUpsert | ai-assistant-pro/src/services/chat-storage.ts:33-55 | deleting an id after saving under it is the same as only deleting |
| KeyedList.RemoveKeyAt | ai-assistant-pro/src/services/chat-storage.ts:39 | replacing a record by another with the same id is invisible to the delete filter |
| KeyedList.RemoveKeyMembers | storyforge-kids/src/storage.ts:43 | a record survives the delete exactly when it was in the list and has another id |
| KeyedList.KeepKeyMembers | storyforge-kids/src/storage.ts:169 | a record is kept exactly when it was in the list and has the key |
| KeyedList.KeepKeyExactly | storyforge-kids/src/storage.ts:169 | the same, for every record at once |
| KeyedList.RemoveKeyConcat | ai-assistant-pro/src/services/chat-storage.ts:54 | the delete filter distributes over concatenation, so the order of the rest is kept |
| KeyedList.KeepKeyConcat | storyforge-kids/src/storage.ts:169 | the per-book filter distributes over concatenation, so the stored order is kept |
| KeyedList.RemoveKeyAbsent | storyforge-kids/src/storage.ts:43 | deleting an id that no record has leaves the list as it was |
| KeyedList.FilterPartition | storyforge-kids/src/storage.ts:169 | the keep-filter and the delete-filter split the list: as multisets, together they are the list |
| KeyedList.FindAfterRemove | storyforge-kids/src/storage.ts:40-54 | after a delete, nothing is found under the id, and every other id finds what it found before |
| KeyedList.FindIndexTail | storyforge-kids/src/storage.ts:54 | when the head does not match, `find` continues in the tail |
| WebScraper.DefaultProxyList | ai-assistant-pro/src/services/web-scraper.ts:62-75 | the default list has two entries, and neither is active |
| WebScraper.ActiveProxies | ai-assistant-pro/src/services/web-scraper.ts:112 | the active subset: only active entries of the list, and every active entry; an all-active list is kept whole |
| WebScraper.ActiveProxiesConcat | ai-assistant-pro/src/services/web-scraper.ts:112 | the filter keeps list order and multiplicity: it distributes over concatenation, and one entry passes exactly when it is active |
| WebScraper.Rotation | ai-assistant-pro/src/services/web-scraper.ts:115-116 | n consecutive picks yield exactly n entries |
| WebScraper.RotationAt | ai-assistant-pro/src/services/web-scraper.ts:115-116 | pick j of a run is the active entry at (cursor + j) mod K |
| WebScraper.RotationCoversActive | ai-assistant-pro/src/services/web-scraper.ts:112-116 | K picks over K active entries are the active list rotated to start at cursor mod K |
| WebScraper.RotationIsPermutation | ai-assistant-pro/src/services/web-scraper.ts:112-116 | K picks return every active entry exactly as often as it occurs |
| WebScraper.BuildProxyConfig | ai-assistant-pro/src/services/web-scraper.ts:120-130 | host, port and protocol are copied; auth is attached exactly when username and password are both non-empty |
| WebScraper.RouteProxy | ai-assistant-pro/src/services/web-scraper.ts:148-164 | a proxy option exactly when the route is not direct: SOCKS5 at 127.0.0.1:9050 for Tor, the built config for a proxy |
| WebScraper.RouteDescriptor | ai-assistant-pro/src/services/web-scraper.ts:155-162 | a descriptor exactly when the route is not direct; for a proxy it is `host:port`, and the port reads back from it |
| WebScraper.FailureMessage | ai-assistant-pro/src/services/web-scraper.ts:191 | `error.message \|\| 'Unknown error'`: the transport's message when it has one, and "Unknown error" when it is empty |
| WebScraper.ChooseRoute | ai-assistant-pro/src/services/web-scraper.ts:148-164 | Tor exactly when `useTor` and the scraper's flag are both set; otherwise the next active proxy exactly when `useProxy` is set and one is active; otherwise direct |
| WebScraper.BaseRequest | ai-assistant-pro/src/services/web-scraper.ts:137-146 | method defaults to GET, the timeout to 30000, and caller headers override the User-Agent; no proxy yet |
| WebScraper.Removed | ai-assistant-pro/src/services/web-scraper.ts:216 | `splice(i, 1)` removes exactly element i when it exists, and nothing otherwise |
| WebScraper.Toggled | ai-assistant-pro/src/services/web-scraper.ts:220-225 | only entry i flips its `active` flag; an index with no entry changes nothing |
| WebScraper.ToggleTwice | ai-assistant-pro/src/services/web-scraper.ts:220-225 | toggling the same index twice restores the list |
| WebScraper.WebScraperService.constructor | ai-assistant-pro/src/services/web-scraper.ts:43-91 | the loaded state, each key read in its own try block: the stored list or, when none is stored, the default list, and [] when that read fails; the stored logs, or [] when none are stored or that read fails; cursor 0; Tor off |
| WebScraper.WebScraperService.GetNextProxy | ai-assistant-pro/src/services/web-scraper.ts:111-118 | null exactly when no entry is active, leaving the cursor alone; otherwise the active entry at cursor mod K, active and in the list, and the cursor grows by one |
| WebScraper.WebScraperService.GetProxyList | ai-assistant-pro/src/services/web-scraper.ts:227-229 | a copy of the list: the same entries in order |
| WebScraper.WebScraperService.GetScrapingLogs | ai-assistant-pro/src/services/web-scraper.ts:231-233 | a copy of the log: the same entries in order |
| WebScraper.WebScraperService.SaveScrapingLogs | ai-assistant-pro/src/services/web-scraper.ts:101-109 | the store receives the last 100 entries; a failed write is swallowed and leaves the store as it was |
| WebScraper.WebScraperService.SaveProxyList | ai-assistant-pro/src/services/web-scraper.ts:93-99 | the store receives the whole list; a failed write is swallowed and leaves the store as it was |
| WebScraper.WebScraperService.Scrape | ai-assistant-pro/src/services/web-scraper.ts:132-208 | sends the routed request; appends exactly one log entry with the route's descriptor; persists the last 100 unless the write fails; advances the cursor only on the proxy route; returns the reply, or throws "Scraping failed: " + message |
| WebScraper.WebScraperService.AddProxy | ai-assistant-pro/src/services/web-scraper.ts:210-213 | appends at the end and persists the list, or keeps the old stored list when the write fails |
| WebScraper.WebScraperService.RemoveProxy | ai-assistant-pro/src/services/web-scraper.ts:215-218 | removes exactly element i and persists the list, or keeps the old stored list when the write fails |
| WebScraper.WebScraperService.ToggleProxy | ai-assistant-pro/src/services/web-scraper.ts:220-225 | flips entry i and persists, or keeps the old stored list when the write fails; an index with no entry writes nothing |
| WebScraper.WebScraperService.ClearScrapingLogs | ai-assistant-pro/src/services/web-scraper.ts:235-238 | empties the log and persists the empty log, or keeps the old stored log when the write fails |
| WebScraper.WebScraperService.SetTorEnabled | ai-assistant-pro/src/services/web-scraper.ts:240-242 | sets only the scraper's own Tor flag |
| WebScraper.WebScraperService.IsTorEnabled | ai-assistant-pro/src/services/web-scraper.ts:244-246 | the scraper's own Tor flag, as last set |
| WebScraper.WebScraperService.GetProxyIP | ai-assistant-pro/src/services/web-scraper.ts:259-272 | "No proxy configured" with no request and the cursor unchanged when none is active; otherwise a request through the next proxy, with the cursor one step on, answering the echoed ip, or "Unable to fetch proxy IP" when the request fails or the body is null |
| WebScraper.GetCurrentIP | ai-assistant-pro/src/services/web-scraper.ts:248-257 | the echoed ip, or "Unable to fetch IP" when the request fails or the body is null |
| WebScraper.EchoedIp | ai-assistant-pro/src/services/web-scraper.ts:253 | `response.data.ip` throws exactly on a null body, and is the ip string when the body has one |
| WebScraper.TorScrapeScenario | ai-assistant-pro/src/services/web-scraper.ts:148-156 | a Tor-routed scrape logs one successful entry with the Tor descriptor and leaves the cursor at 0 |
| TorService.Merge | ai-assistant-pro/src/services/tor-service.ts:156-157 | `{...s, ...p}`: each supplied field replaces, each other field stays |
| TorService.MergeEmpty | ai-assistant-pro/src/services/tor-service.ts:157 | an empty update leaves the settings unchanged |
| TorService.MergeTwice | ai-assistant-pro/src/services/tor-service.ts:157 | two updates equal one combined update in which the later value wins per field; repeating an update changes nothing |
| TorService.TorRequest | ai-assistant-pro/src/services/tor-service.ts:162-184 | SOCKS5 at the configured host and port; the Tor Browser User-Agent unless overridden; a 60000 ms default timeout |
| TorService.RequestLogs | ai-assistant-pro/src/services/tor-service.ts:186-192 | one request adds two entries: the info entry, then "Successfully fetched: " + url when the transport answered, or the error with its message |
| TorService.ExitIp | ai-assistant-pro/src/services/tor-service.ts:269 | `response.IP \|\| 'Unknown'` throws exactly on a null body, is never empty, is the IP string when there is one, and "Unknown" when the field is missing or empty |
| TorService.ReportsTor | ai-assistant-pro/src/services/tor-service.ts:283 | `response.IsTor === true` throws exactly on a null body, and otherwise holds exactly for a literal true |
| TorService.TorService.constructor | ai-assistant-pro/src/services/tor-service.ts:42-81 | the loaded state: the stored settings or the defaults (disabled, 127.0.0.1:9050, control port 9051, 10 min); the stored log; not connected; no circuit |
| TorService.TorService.AddLog | ai-assistant-pro/src/services/tor-service.ts:91-109 | appends exactly one entry and persists the last 100 |
| TorService.TorService.SaveSettings | ai-assistant-pro/src/services/tor-service.ts:83-89 | a failed write is swallowed and adds one error entry |
| TorService.TorService.Enable | ai-assistant-pro/src/services/tor-service.ts:111-135 | always returns true, with enabled and connected set, and the exact log entries it adds |
| TorService.TorService.Disable | ai-assistant-pro/src/services/tor-service.ts:137-142 | clears enabled and connected, and leaves the circuit alone |
| TorService.TorService.UpdateSettings | ai-assistant-pro/src/services/tor-service.ts:156-160 | settings become the merge; `connected` is not touched |
| TorService.TorService.IsEnabled | ai-assistant-pro/src/services/tor-service.ts:144-146 | the enabled flag of the settings |
| TorService.TorService.IsConnected | ai-assistant-pro/src/services/tor-service.ts:148-150 | the connected flag |
| TorService.TorService.GetSettings | ai-assistant-pro/src/services/tor-service.ts:152-154 | a copy of the settings: every field as stored |
| TorService.TorService.Request | ai-assistant-pro/src/services/tor-service.ts:170-195 | when disabled, throws before sending or logging; otherwise sends the Tor request, logs it and its outcome, and rethrows the transport error |
| TorService.TorService.AccessOnionSite | ai-assistant-pro/src/services/tor-service.ts:197-227 | checks "enabled" first and then the `.onion` suffix, both before any request; a failed request is an unreachable result, not an exception |
| TorService.TorService.NewCircuit | ai-assistant-pro/src/services/tor-service.ts:229-256 | when disabled, throws and keeps the old circuit; otherwise installs an established three-node circuit |
| TorService.TorService.GetCurrentCircuit | ai-assistant-pro/src/services/tor-service.ts:258-260 | a copy of the circuit, which when present has three nodes and is established |
| TorService.TorService.GetExitNodeIP | ai-assistant-pro/src/services/tor-service.ts:262-274 | "Tor not enabled" without a request when disabled; otherwise `IP \|\| 'Unknown'`, or "Unable to fetch" plus a warning entry when the request fails or the body is null |
| TorService.TorService.VerifyTorConnection | ai-assistant-pro/src/services/tor-service.ts:276-296 | false without a request when disabled; otherwise `IsTor === true`, with a success or a warning entry, or an error entry when the request fails or the body is null |
| TorService.TorService.ClearLogs | ai-assistant-pro/src/services/tor-service.ts:302-305 | empties the log and the persisted log |
| TorService.TorService.GetLogs | ai-assistant-pro/src/services/tor-service.ts:298-300 | a copy of the log: the same entries in order |
| TorService.TorService.GetConnectionStatus | ai-assistant-pro/src/services/tor-service.ts:307-317 | reports enabled and connected as they are, and circuitActive exactly when a circuit exists |
| TorService.DisableKeepsCircuit | ai-assistant-pro/src/services/tor-service.ts:137-142 | after enable, new circuit and disable, the status shows Tor off with an active circuit, and a second `newCircuit` is refused |
| TorService.OnionSuffixExamples | ai-assistant-pro/src/services/tor-service.ts:202 | the suffix check accepts an address ending in `.onion` and refuses an ordinary one |
| ChatStorage.ApiKeyOf | ai-assistant-pro/src/services/chat-storage.ts:90-98 | `settings?.apiKey \|\| null`: null when settings are missing or the key is empty |
| ChatStorage.WithApiKey | ai-assistant-pro/src/services/chat-storage.ts:100-109 | changes only `apiKey` of stored settings; when none are stored, the defaults (claude-3.5-sonnet, dark, haptics on) with the key |
| ChatStorage.ApiKeyRoundTrip | ai-assistant-pro/src/services/chat-storage.ts:90-109 | reading back a saved key gives the key, unless it is empty |
| ChatStorage.WithApiKeyIdempotent | ai-assistant-pro/src/services/chat-storage.ts:100-109 | saving the same key twice gives the same settings as once |
| ChatStorage.ChatStorageService.constructor | ai-assistant-pro/src/services/chat-storage.ts:22 | the service over the given stored values |
| ChatStorage.ChatStorageService.GetConversations | ai-assistant-pro/src/services/chat-storage.ts:23-31 | the stored list, or [] when the key is missing or the read fails |
| ChatStorage.ChatStorageService.SaveConversation | ai-assistant-pro/src/services/chat-storage.ts:33-49 | the upsert is written, and the saved conversation is then found under its id; a failed write rethrows and changes nothing |
| ChatStorage.ChatStorageService.DeleteConversation | ai-assistant-pro/src/services/chat-storage.ts:51-60 | writes the list without that id, after which nothing is found under it |
| ChatStorage.ChatStorageService.ClearAllConversations | ai-assistant-pro/src/services/chat-storage.ts:62-69 | removes the key, so the next read gives [] |
| ChatStorage.ChatStorageService.GetSettings | ai-assistant-pro/src/services/chat-storage.ts:71-79 | the stored settings, or null when missing or unreadable |
| ChatStorage.ChatStorageService.SaveSettings | ai-assistant-pro/src/services/chat-storage.ts:81-88 | writes the settings, or rethrows and changes nothing |
| ChatStorage.ChatStorageService.GetApiKey | ai-assistant-pro/src/services/chat-storage.ts:90-98 | the stored non-empty key, or null |
| ChatStorage.ChatStorageService.SaveApiKey | ai-assistant-pro/src/services/chat-storage.ts:100-114 | writes the settings with the new key, after which `getApiKey` returns it unless it is empty |
| ChatStorage.DeleteUndoesSave | ai-assistant-pro/src/services/chat-storage.ts:33-55 | deleting a conversation after saving it gives what deleting alone gives |
| ChatStorage.SaveKeepsOthers | ai-assistant-pro/src/services/chat-storage.ts:33-44 | saving one conversation does not change what the other ids find |
| StoryStorage.DefaultCharacters | storyforge-kids/src/storage.ts:70-99 | four default characters with ids "1" to "4" |
| StoryStorage.LoadedCharacters | storyforge-kids/src/storage.ts:62-107 | the stored list; with nothing stored, the defaults, or [] when persisting them fails; [] when the read fails |
| StoryStorage.CharactersAfterLoad | storyforge-kids/src/storage.ts:101 | the store changes only when nothing was stored and the defaults were written |
| StoryStorage.LoadAgainSeesDefaults | storyforge-kids/src/storage.ts:62-107 | a second load returns what the first returned, and the write of the defaults happens at most once |
| StoryStorage.StoryStore.constructor | storyforge-kids/src/storage.ts:4-9 | an empty store: none of the four keys is set |
| StoryStorage.StoryStore.GetBooks | storyforge-kids/src/storage.ts:12-20 | the stored books, or [] |
| StoryStorage.StoryStore.SaveBook | storyforge-kids/src/storage.ts:22-38 | writes the upsert, after which `getBook` finds the book; a failed write changes nothing |
| StoryStorage.StoryStore.DeleteBook | storyforge-kids/src/storage.ts:40-49 | writes the list without that id, after which `getBook` finds nothing |
| StoryStorage.StoryStore.GetBook | storyforge-kids/src/storage.ts:51-59 | null exactly when no stored book has the id, otherwise the first stored book with that id |
| StoryStorage.StoryStore.GetCharacters | storyforge-kids/src/storage.ts:62-107 | returns the loaded characters and persists the defaults on first use |
| StoryStorage.StoryStore.SaveCharacter | storyforge-kids/src/storage.ts:109-125 | the upsert into the loaded characters, defaults included |
| StoryStorage.StoryStore.GetChatHistory | storyforge-kids/src/storage.ts:128-136 | the stored history, or [] |
| StoryStorage.StoryStore.SaveChatMessage | storyforge-kids/src/storage.ts:138-151 | writes the last 100 of history plus message: length min(n+1, 100), ending with the message |
| StoryStorage.StoryStore.ClearChatHistory | storyforge-kids/src/storage.ts:153-160 | writes [] |
| StoryStorage.StoryStore.GetMarketingContent | storyforge-kids/src/storage.ts:163-177 | with a non-empty book id, the entries for that book in stored order, with their multiplicity; otherwise everything |
| StoryStorage.StoryStore.SaveMarketingContent | storyforge-kids/src/storage.ts:179-195 | the upsert by id into the whole list |
| StoryStorage.MarketingPartition | storyforge-kids/src/storage.ts:163-172 | the per-book view and the other entries together are the stored list |
| StoryStorage.NewMarketingEntryView | storyforge-kids/src/storage.ts:179-190 | saving a new entry adds it at the end of its book's view only |
| Permissions.AllTypesComplete | ai-assistant-pro/src/services/permissions.ts:13-21 | the seven permission types are all listed |
| Permissions.PermissionDefinitions | ai-assistant-pro/src/services/permissions.ts:39-82 | seven definitions in enum order with distinct types |
| Permissions.DefinitionFor | ai-assistant-pro/src/services/permissions.ts:39-82 | every type has exactly one definition |
| Permissions.DefaultUserFlags | ai-assistant-pro/src/services/permissions.ts:118-122 | every type, each false |
| Permissions.CheckSystemPermissions | ai-assistant-pro/src/services/permissions.ts:125-159 | all seven types; file system true; microphone false; each probed type granted exactly when its probe says yes and no earlier probe threw |
| Permissions.RequestSystemPermission | ai-assistant-pro/src/services/permissions.ts:167-204 | true for microphone and file system; for the others, true exactly when the request answers yes, and false when it throws |
| Permissions.PermissionService.constructor | ai-assistant-pro/src/services/permissions.ts:84-88 | an empty usage log over the stored flags |
| Permissions.PermissionService.GetUserPermissions | ai-assistant-pro/src/services/permissions.ts:108-123 | the stored flags, or all false when missing or unreadable |
| Permissions.PermissionService.GetAllPermissions | ai-assistant-pro/src/services/permissions.ts:97-106 | one entry per definition in order; `granted` and `systemGranted` are the flags, false when missing |
| Permissions.PermissionService.CheckPermission | ai-assistant-pro/src/services/permissions.ts:206-210 | true exactly when both the user flag and the system flag are set |
| Permissions.PermissionService.SetPermission | ai-assistant-pro/src/services/permissions.ts:161-165 | only that type's flag becomes the new value; all others stay |
| Permissions.PermissionService.LogUsage | ai-assistant-pro/src/services/permissions.ts:212-225 | push then trim: the log is the last 100 of the full history |
| Permissions.PermissionService.GetUsageLogs | ai-assistant-pro/src/services/permissions.ts:227-229 | the newest min(n, 100) entries of the usage history, in order |
| Permissions.PermissionService.ClearUsageLogs | ai-assistant-pro/src/services/permissions.ts:231-233 | empties the log |
| Permissions.MicrophoneNeverGranted | ai-assistant-pro/src/services/permissions.ts:141-209 | `checkPermission(MICROPHONE)` is always false |
| Permissions.FileSystemFollowsUser | ai-assistant-pro/src/services/permissions.ts:133-209 | the file-system check is the user flag alone |
| Permissions.ThrowDeniesLater | ai-assistant-pro/src/services/permissions.ts:136-156 | a probe that throws denies its own permission and every later probed one |
| Permissions.CheckAgreesWithList | ai-assistant-pro/src/services/permissions.ts:97-210 | the list entry for a type carries both halves of `checkPermission` for it |
| Permissions.NothingStoredDeniesAll | ai-assistant-pro/src/services/permissions.ts:118-209 | with no stored flags, every check is false |
| OpenRouter.AvailableModels | ai-assistant-pro/src/services/openrouter.ts:20-51 | five models with distinct ids; the first is anthropic/claude-3.5-sonnet |
| OpenRouter.ValidateApiKey | ai-assistant-pro/src/services/openrouter.ts:139-141 | true exactly when the key starts with `sk-or-` and has more than 20 characters |
| OpenRouter.ValidateApiKeyExamples | ai-assistant-pro/src/services/openrouter.ts:139-141 | a well-formed key passes and a short one fails |
| OpenRouter.ValidateApiKeyExtends | ai-assistant-pro/src/services/openrouter.ts:139-141 | appending characters to a key that passes keeps it passing, since the test is a prefix check and a length lower bound |
| OpenRouter.BuildChatRequest | ai-assistant-pro/src/services/openrouter.ts:69-98 | defaults 0.7 / 4096 / false apply only to absent options; `maxTokens` is sent as `max_tokens`; the bearer token; a stream response type exactly for `stream: true` |
| OpenRouter.Split | ai-assistant-pro/src/services/openrouter.ts:103 | at least one piece, and no piece contains a newline |
| OpenRouter.SplitJoin | ai-assistant-pro/src/services/openrouter.ts:103 | joining the pieces with newlines gives the chunk back |
| OpenRouter.NonBlank | ai-assistant-pro/src/services/openrouter.ts:103 | drops lines only, and no kept line is blank after trimming |
| OpenRouter.DeltaContent | ai-assistant-pro/src/services/openrouter.ts:110 | `choices[0]?.delta?.content \|\| ''`: empty without `choices` or without string content, and the content string when there is one |
| OpenRouter.LineContent | ai-assistant-pro/src/services/openrouter.ts:104-117 | nothing for a line without the `data: ` prefix or for `[DONE]`; any other data line gives the payload's delta content when it parses, and nothing when it does not |
| OpenRouter.LineContents | ai-assistant-pro/src/services/openrouter.ts:104-118 | one content per line, entry i being line i's content |
| OpenRouter.NonEmpty | ai-assistant-pro/src/services/openrouter.ts:111-114 | only non-empty contents get through |
| OpenRouter.NonEmptyConcat | ai-assistant-pro/src/services/openrouter.ts:104-119 | selecting non-empty contents distributes over concatenation |
| OpenRouter.ConcatAppend | ai-assistant-pro/src/services/openrouter.ts:112 | `fullResponse +=` over two runs is the concatenation of both |
| OpenRouter.LinesContentsConcat | ai-assistant-pro/src/services/openrouter.ts:104-119 | lines are handled independently and in order |
| OpenRouter.DoneDoesNotStop | ai-assistant-pro/src/services/openrouter.ts:107 | a `[DONE]` line is skipped, and the lines after it still count |
| OpenRouter.BlankLineContent | ai-assistant-pro/src/services/openrouter.ts:103-105 | a blank line contributes nothing |
| OpenRouter.BlankLinesContributeNothing | ai-assistant-pro/src/services/openrouter.ts:103 | dropping blank lines does not change the contents |
| OpenRouter.LinesContentsSnoc | ai-assistant-pro/src/services/openrouter.ts:104-119 | one more line extends the calls and the text by that line's content |
| OpenRouter.StreamTextConcat | ai-assistant-pro/src/services/openrouter.ts:102-122 | the text streamed over two runs of chunks is the first run's text followed by the second's |
| OpenRouter.StreamText | ai-assistant-pro/src/services/openrouter.ts:100-122 | no chunks give the empty text, and one chunk gives the concatenation of its contents |
| OpenRouter.ReplyContent | ai-assistant-pro/src/services/openrouter.ts:125 | throws exactly when there is no first choice with a `message`, or the `message` is null; otherwise the `content` field |
| OpenRouter.ApiErrorMessage | ai-assistant-pro/src/services/openrouter.ts:129 | the server's `error.message` when it is a non-empty string, otherwise the transport's message |
| OpenRouter.StreamCollector.constructor | ai-assistant-pro/src/services/openrouter.ts:101 | an empty `fullResponse`, and no `onChunk` calls yet |
| OpenRouter.StreamCollector.OnData | ai-assistant-pro/src/services/openrouter.ts:102-120 | one `data` event adds exactly the chunk's non-empty delta contents, in order, to the calls and to `fullResponse` |
| OpenRouter.StreamCollector.OnLines | ai-assistant-pro/src/services/openrouter.ts:104-119 | the per-line loop: the calls and the text grow by the lines' contents |
| OpenRouter.StreamCollector.OnLine | ai-assistant-pro/src/services/openrouter.ts:105-118 | one `data: ` line other than `[DONE]` whose payload parses and has a non-empty delta adds one call and its text; any other line adds nothing |
| OpenRouter.ChatReply | ai-assistant-pro/src/services/openrouter.ts:99-132 | a transport error becomes "OpenRouter API error: " + message; stream + callback gives the concatenated text; stream without a callback throws, since a stream body has no `choices`; otherwise `choices[0].message.content`, which throws when the reply has no first choice or its `message` is missing or null |
| StripeProducts.PlanConfig | storyforge-kids/payments/stripe-products.ts:96-101 | exactly the keys free, starter, pro and enterprise, each mapped to its product |
| StripeProducts.GetPlanConfig | storyforge-kids/payments/stripe-products.ts:108-110 | `PLAN_CONFIG[plan]`, undefined for any other name |
| StripeProducts.GetAllPlans | storyforge-kids/payments/stripe-products.ts:115-122 | four plans in the order free, starter, pro, enterprise, each with its key as id and its product |
| StripeProducts.AllPlansListsEachPlanOnce | storyforge-kids/payments/stripe-products.ts:115-122 | every plan listed, and no id twice |
| StripeProducts.PricesIncrease | storyforge-kids/payments/stripe-products.ts:6-91 | 999, 2999 and 9999 cents, strictly increasing; the free plan has no amount and no price or product id |
| StripeProducts.Allowances | storyforge-kids/payments/stripe-products.ts:6-91 | books per month 2, 10, 0, 0; images per month 0 in every plan |
| StripeWebhook.EventTypeOf | storyforge-kids/payments/stripe-webhook.ts:26-60 | each of the eight handled names maps to its own handler kind, and every other name is unhandled |
| StripeWebhook.WellTyped | storyforge-kids/payments/stripe-webhook.ts:28-56 | an unhandled type accepts any object, and a handled type never goes with an unrelated one |
| StripeWebhook.MetaValue | storyforge-kids/payments/stripe-webhook.ts:90 | `metadata?.[key]` is defined exactly when metadata is present with that key, and is then the value stored under it |
| StripeWebhook.CheckoutUserId | storyforge-kids/payments/stripe-webhook.ts:77-83 | the user id is `parseInt(ref \|\| "0")` when that is a nonzero number, and absent when it is NaN or 0 |
| StripeWebhook.CheckoutCompleted | storyforge-kids/payments/stripe-webhook.ts:74-106 | throws exactly for a new customer whose plan is not configured; for a user, a customer and no record, adds exactly that customer's record: metadata plan (default starter), "active", the plan's allowances, zero usage, a 30-day period from now |
| StripeWebhook.SubscriptionCreatedStep | storyforge-kids/payments/stripe-webhook.ts:112-135 | only an existing record changes: subscription id, status and period (seconds × 1000) |
| StripeWebhook.UpdatedPlan | storyforge-kids/payments/stripe-webhook.ts:148 | the metadata plan when it is non-empty, otherwise the record's own plan |
| StripeWebhook.SubscriptionUpdatedStep | storyforge-kids/payments/stripe-webhook.ts:141-160 | throws exactly for an existing record whose new plan is not configured; otherwise the record takes plan, status, allowances and period (seconds × 1000), and every other field stays |
| StripeWebhook.SetStatus | storyforge-kids/payments/stripe-webhook.ts:166-228 | only the customer's record changes, and only if it exists: the new status and, when given, the cancel time; every other field stays |
| StripeWebhook.RecordPayment | storyforge-kids/payments/stripe-webhook.ts:197-209 | creates a payment only if absent; an existing record is never changed |
| StripeWebhook.InvoiceIntentId | storyforge-kids/payments/stripe-webhook.ts:190-194 | a non-empty intent id as given, or the id of the expanded intent; none without an intent |
| StripeWebhook.InvoiceDescription | storyforge-kids/payments/stripe-webhook.ts:207 | "Invoice " followed by the invoice number, or by "null" when there is none |
| StripeWebhook.InvoicePaidStep | storyforge-kids/payments/stripe-webhook.ts:184-211 | existing payments stay; for a known customer and a new intent id, exactly one payment is added: the customer's user, amount (default 0), currency (default "usd"), "succeeded", "subscription", "Invoice <number>" |
| StripeWebhook.IntentStep | storyforge-kids/payments/stripe-webhook.ts:234-282 | changes exactly when `user_id` is set and the intent is new; then records the parsed user id, the intent's amount and currency, the status, the payment type (default "one_time") and a non-empty description |
| StripeWebhook.HandleEvent | storyforge-kids/payments/stripe-webhook.ts:12-68 | a test event is verified with no change; otherwise the answer is received with the tables of the event's own handler, or 400 with nothing changed exactly when that handler throws |
| StripeWebhook.PaymentsOnlyGrow | storyforge-kids/payments/stripe-webhook.ts:197-280 | no event removes or alters a payment record |
| StripeWebhook.SubscriptionsNeverRemoved | storyforge-kids/payments/stripe-webhook.ts:86-178 | no event removes a subscription |
| StripeWebhook.LimitsFollowPlanPreserved | storyforge-kids/payments/stripe-webhook.ts:90-155 | if every record's limits match its plan's configuration, they still do after any event |
| StripeWebhook.ReplayIsIdempotent | storyforge-kids/payments/stripe-webhook.ts:12-282 | delivering the same event twice gives the same response and tables as delivering it once |
| StripeWebhook.UpdateReplay | storyforge-kids/payments/stripe-webhook.ts:141-160 | replaying a subscription update changes nothing more |
| StripeWebhook.CancelReplayMovesOnlyTimestamp | storyforge-kids/payments/stripe-webhook.ts:172-176 | a replayed cancellation changes only `canceledAt` |
| StripeWebhook.CheckoutThenInvoicePaid | storyforge-kids/payments/stripe-webhook.ts:74-211 | after a checkout creates a customer's subscription, a paid invoice for that customer is recorded against the checkout's user as a succeeded subscription payment |
| StripeWebhook.WebhookStore.constructor | storyforge-kids/payments/stripe-webhook.ts:12 | the store over the given tables |
| StripeWebhook.WebhookStore.HandleCheckoutSessionCompleted | storyforge-kids/payments/stripe-webhook.ts:74-106 | the tables become the outcome of `CheckoutCompleted`, or stay as they were when it throws |
| StripeWebhook.WebhookStore.HandleSubscriptionCreated | storyforge-kids/payments/stripe-webhook.ts:112-135 | the tables become `SubscriptionCreatedStep` |
| StripeWebhook.WebhookStore.HandleSubscriptionUpdated | storyforge-kids/payments/stripe-webhook.ts:141-160 | the tables become the update step's outcome, or stay when it throws |
| StripeWebhook.WebhookStore.UpdateStatus | storyforge-kids/payments/stripe-webhook.ts:166-228 | the tables become `SetStatus` |
| StripeWebhook.WebhookStore.CreatePaymentIfAbsent | storyforge-kids/payments/stripe-webhook.ts:197-280 | the tables become `RecordPayment` |
| StripeWebhook.WebhookStore.HandleInvoicePaid | storyforge-kids/payments/stripe-webhook.ts:184-211 | the tables become `InvoicePaidStep` |
| StripeWebhook.WebhookStore.HandlePaymentIntent | storyforge-kids/payments/stripe-webhook.ts:234-282 | the tables become `IntentStep` with the event's status |
| StripeWebhook.WebhookStore.HandleStripeWebhook | storyforge-kids/payments/stripe-webhook.ts:12-68 | the response and the new tables are exactly `HandleEvent` of the old tables |

## Left out

- I/O is outside the model: the axios transport, AsyncStorage, the Stripe SDK and the Expo permission APIs. Their outcomes are inputs, as described above.
- The `./db` module is modelled as two tables whose calls always succeed. No database failure is an input.
- JSON `parse` / `stringify` of stored values is not modelled; the stores hold decoded values. A stored empty string, which the source reads as "nothing stored", is the same as a missing key.
- Clocks, `Math.random` ids and circuit names are parameters. Tor log entries keep type and message only, not their id or timestamp.
- Async interleavings are not modelled. The constructors of the scraper and the Tor service start their loads without waiting; the model starts from the loaded state.
- `TorService.TorService.constructor`: the "Failed to load Tor settings" error entry that a failed settings read adds (tor-service.ts:68) is not modelled.
- A line of a stream that is split across two `data` events is lost by the source. The model handles each chunk on its own and does not model this loss.
- `TorService.TorService.AddLog` and `TorService.TorService.ClearLogs`: a swallowed `saveLogs` failure, which in the source leaves the stored log stale, is not modelled. The model always persists the last 100 entries. (The scraper's writes do take a `writeOk` outcome.)
- Numbers: every JavaScript number is an unbounded `int`, and the temperature is a `real`. This covers ports, amounts, timestamps, user ids and the proxy cursor. Rounding above 2^53 is not modelled: `parseInt("9007199254740993")` is 9007199254740992 in the source (stripe-webhook.ts:77, 238) and 9007199254740993 in `Common.ParseInt`, `StripeWebhook.CheckoutUserId` and `StripeWebhook.IntentStep`. Exponent rendering is not modelled either: `${n}` writes 1e21 and above as "1e+21" (tor-service.ts:126), while `Common.IntToString`, `WebScraper.RouteDescriptor` and the Tor "SOCKS proxy:" entry write all the digits. NaN, Infinity and fractional ports or amounts are not modelled.
- `getInstance` singletons and the `OpenRouterService` API-key field are not modelled. The key is a parameter of `BuildChatRequest`.
- `WebScraper.WebScraperService.RemoveProxy`: takes a non-negative index. `splice` with a negative index counts from the end, and that case is not modelled.
- `WebScraper.WebScraperService.ToggleProxy`: the source flips `active` on the shared entry object, so entries that an earlier `getProxyList` (a shallow copy) handed out change too. The model has value semantics: a list returned earlier keeps the old flag.
- `OpenRouter.ValidateApiKey`: `apiKey.length` counts UTF-16 code units, while the model counts characters. A key with characters outside the Basic Multilingual Plane can pass the source's length test and fail the model's.
- `OpenRouter.ApiErrorMessage`: a truthy non-string `error.message` in the server's body is rendered into the error text by the source. The model falls back to the transport's message.
- `StripeWebhook.CheckoutCompleted`: a plan named `constructor` (or another name every JavaScript object has) reads properties of a function in the source, so undefined allowances are written. The model treats the plan as unconfigured, throws, and answers 400.
- `StripeWebhook.SubscriptionUpdatedStep`: the same holds for a `constructor` plan in the update's metadata. The source writes the record with undefined allowances; the model throws and answers 400.
- `Common.ParseInt`: reads a sign and base-10 digits only. Leading whitespace and `0x` prefixes are not modelled.
- `StripeProducts.GetPlanConfig`: names such as `constructor` or `toString`, which JavaScript finds on any object, are treated as absent.
- `TorService.Merge`: a field explicitly set to `undefined` in a partial update is treated as absent.
- `OpenRouter.DeltaContent`, `TorService.ExitIp` and `WebScraper.EchoedIp`: a non-string value there is treated as missing.
- `OpenRouter.ReplyContent`: `choices` is read as an array only. An object with a `"0"` key is treated as having no first choice. A missing `content` comes back as null, not `undefined`.
- `StripeWebhook.HandleEvent`: a database call that throws gets the 400 at stripe-webhook.ts:64-66 in the source. The model covers only the 400 of an unconfigured plan. It also keeps only the fact of the 400, not the error text in its body, and the TypeError texts are stand-ins.
- `StripeWebhook.WellTyped`: an event whose object does not match its type (the source casts) is excluded by a precondition.
- `StripeWebhook.SubscriptionCreatedStep`, `StripeWebhook.SubscriptionUpdatedStep` and `StripeWebhook.SetStatus`: `db.updateSubscription(userId, ...)` (stripe-webhook.ts:128, 151, 173, 224) is modelled as an update of the record found by customer id. Other records of the same user are not touched.
- `StripeWebhook.IntentStep`: a `user_id` that `parseInt` reads as NaN is stored as a missing user id. A database failure is not modelled.
- The screens, the app shell, the theme file and the Python tools are not part of this model.
