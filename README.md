# MCP integration for SillyTavern, modelled in Dafny

This project models the core of a SillyTavern extension. While a role-play
reply is being generated, the extension decides which MCP (Model Context
Protocol) tools to call, calls them, and hands their results to the prompt.
The core has four parts:

- **Scene analysis** (`src/SceneAnalyzer.js`). Nine scene types ("weather",
  "location", "time", "memory", "search", "shopping",
  "physical_interaction", "emotional_state", "relationship") are recognised
  in user input, the last five chat messages and the character card. Each
  is recognised by keywords, regular expressions and context clues. The
  scenes are merged by type, ranked by confidence, and mapped to at most
  five recommended tools.
- **Tool manager** (`src/McpToolManager.js`). It keeps four insertion-ordered
  maps: the tool configurations, the registered tools, the connections and
  the result cache. It loads the configuration or falls back to defaults,
  connects to remote MCP servers through `McpConnection` (an HTTP request
  retried with a linear pause), and registers two built-in tools. It calls
  tools through the cache, one call or a batch at a time, lists the
  available tools, checks their health, clears the cache and disconnects.
- **Integration engine** (`src/McpIntegrationEngine.js`). On the
  `generation_started` event it analyses the context. When the analysis is
  confident enough it picks the tools and a function for each, builds
  their arguments, calls them as one batch, summarises the results and
  counts them. On `GENERATE_BEFORE_COMBINE_PROMPTS` it formats the results
  as a text block for the prompt.
- **Client plugin** (`index.js`). This is the browser-side version: the
  settings store with its defaults, a small regex scene analyser, a
  simulated tool manager with its own cache and counters, and
  `processUserInput`.

Modules: `Common` (strings, slicing, a stable descending sort),
`OrderedMaps` (a JavaScript `Map`), `JsonValues` (JSON values, truthiness,
property access, `JSON.stringify`, object spread), `Failures` (what the
code throws), `ScenePatterns` (the scene catalogue and the regular
expressions as data), `SceneAnalysis`, `Connection`, `ToolManager`,
`IntegrationEngine` and `ClientPlugin`.

The objects whose fields the code updates in place are classes:
`SceneAnalyzer`, `McpConnection`, `McpToolManager`, `McpIntegrationEngine`,
`SettingsStore`, `ClientSceneAnalyzer`, `ClientMcpToolManager` and
`ClientMcpIntegrationEngine`. Each of their methods is proved against a
function of the inputs and the old state. The properties are proved as
lemmas about those functions.

Things the code gets from its environment are parameters:

- the network: `net(request, attempt)` gives the outcome of each `fetch`
  attempt;
- the clock: one `now` per call;
- the configuration endpoint: its outcome is an input;
- the built-in handlers' host values;
- the locale formatting of dates: a function parameter;
- whether the batch timer fires first: a boolean.

## Model

| member | source | states |
|---|---|---|
| Common.ToLower | src/SceneAnalyzer.js:243 | `toLowerCase` keeps the length, lowers each letter A–Z and the Kelvin sign U+212A to ASCII, and leaves every other character as it is |
| Common.TrimStart | src/McpIntegrationEngine.js:406 | the result is a suffix of the input that starts at a non-space, and only whitespace was dropped |
| Common.TrimEnd | src/McpIntegrationEngine.js:406 | the result is a prefix of the input that ends at a non-space, and only whitespace was dropped |
| Common.TrimSlice | src/McpIntegrationEngine.js:406 | `trim()` returns the contiguous piece of the input that starts after the leading whitespace |
| Common.TrimDropsTrailing | src/McpIntegrationEngine.js:406 | everything after the trimmed piece is whitespace |
| Common.TrimEnds | src/McpIntegrationEngine.js:406 | a trimmed string has whitespace at neither end |
| Common.SliceEnd | src/McpIntegrationEngine.js:166-167 | `slice(0, end)` keeps `min(end, len)` elements for a non-negative end and `len + end` (at least 0) for a negative one |
| Common.LastN | src/SceneAnalyzer.js:203 | `slice(-n)` gives the last `min(n, len)` elements |
| Common.InsertDescMembers | src/SceneAnalyzer.js:351-353 | inserting into the sorted list adds exactly that element |
| Common.InsertDescSorted | src/SceneAnalyzer.js:351-353 | insertion keeps a list sorted by non-increasing key |
| Common.SortDescProps | src/SceneAnalyzer.js:351-353 | the stable sort by `b.key - a.key` yields a non-increasing permutation of its input |
| Common.PermutationMembers | src/SceneAnalyzer.js:351-353 | a permutation has the same members as the original |
| Common.DistinctCount | src/SceneAnalyzer.js:327-353 | a sequence without repeats holds each value at most once |
| Common.DistinctPermutation | src/SceneAnalyzer.js:327-353 | a permutation of a sequence without repeats has no repeats |
| Common.CollectSpec | src/SceneAnalyzer.js:245-286 | collecting the present results of a loop keeps exactly the present values, at most one per input |
| Common.DistinctKeysPermutation | src/SceneAnalyzer.js:351-353 | sorting keeps the keys of a list pairwise distinct |
| OrderedMaps.OMap.Set | src/McpToolManager.js:53 | `map.set(k, v)` maps `k` to `v`; a new key goes last and an existing key keeps its place |
| OrderedMaps.OMap.Delete | src/McpToolManager.js:354 | `map.delete(k)` removes exactly `k` |
| OrderedMaps.OMap.Values | src/SceneAnalyzer.js:351 | `Array.from(map.values())` lists the values in insertion order |
| OrderedMaps.OMap.Entries | src/McpToolManager.js:322 | iterating a `Map` gives the `[key, value]` pairs in insertion order |
| OrderedMaps.Empty | src/McpToolManager.js:7-10 | `new Map()` has no keys |
| OrderedMaps.Without | src/McpToolManager.js:354 | removing a key from the key order keeps the other keys and keeps them distinct |
| JsonValues.Normalize | src/McpIntegrationEngine.js:347 | dropping trailing zeros after the decimal point never lengthens the fraction |
| JsonValues.PadDigits | src/McpIntegrationEngine.js:433 | the fraction digits of `toFixed(2)` have exactly the requested width |
| JsonValues.FieldValue | src/McpToolManager.js:52 | reading an own property of an object never throws |
| JsonValues.Prop | src/McpToolManager.js:52 | `j.key` throws exactly when `j` is `null` |
| JsonValues.PropOf | src/McpIntegrationEngine.js:340 | reading a property of `undefined` or of a thrown read throws |
| JsonValues.FieldValueDefined | src/McpToolManager.js:52 | a property reads as defined exactly when the object has that key |
| JsonValues.SetField | index.js:520 | `obj[key] = v` makes `key` read `v` and leaves every other key as it was |
| JsonValues.RemoveField | index.js:520 | assigning `undefined` makes the key read as absent and leaves the others as they were |
| JsonValues.SetFieldKeys | index.js:520 | an assignment adds exactly its key to the object's keys |
| JsonValues.FieldValueIndex | src/McpToolManager.js:52 | in an object without repeated keys, each field is what its key reads |
| JsonValues.SpreadValue | src/McpToolManager.js:53-62 | in `{...base, ...over}`, a key of `over` reads its value from `over` and any other key reads from `base` |
| JsonValues.SpreadKeys | src/McpToolManager.js:53-62 | a spread object has exactly the keys of its two operands |
| JsonValues.ToNumber | index.js:191 | a JSON number reads as its value; `undefined` or a thrown read gives no number |
| JsonValues.Or | src/McpToolManager.js:54-60 | `x \|\| d` is `x` when truthy and `d` otherwise |
| JsonValues.Includes | src/McpToolManager.js:292 | `array.includes(s)` is membership of the string in an array; on a non-value it gives nothing |
| ScenePatterns.Catalog | src/SceneAnalyzer.js:15-177 | `initializePatterns` inserts nine scene types |
| ScenePatterns.ToolMappingsInRange | src/SceneAnalyzer.js:356-447 | every priority in the tool-mapping table lies in (0, 1] |
| SceneAnalysis.WordHitsSpec | src/SceneAnalyzer.js:250-255 | the keyword (or context clue) evidence is exactly the listed words the lowered text contains, at most one per word |
| SceneAnalysis.PatternHitsSpec | src/SceneAnalyzer.js:258-263 | the pattern evidence is exactly the sources of the listed patterns that match the text |
| SceneAnalysis.ScoreThreshold | src/SceneAnalyzer.js:252-274 | with 0.3 per keyword, 0.5 per pattern and 0.2 per clue, the score passes `> 0.3` exactly with two keywords, a pattern, two clues, or a keyword and a clue |
| SceneAnalysis.SceneOfSpec | src/SceneAnalyzer.js:245-283 | a scene is reported exactly when the threshold condition holds; it has the scene's type, source `text_analysis`, confidence in (0.3, 1], and exactly the evidence found |
| SceneAnalysis.TextScenesSpec | src/SceneAnalyzer.js:239-286 | `analyzeText` reports at most one scene per catalogue entry, exactly the ones detected in a non-empty text, all with confidence in (0.3, 1] |
| SceneAnalysis.PersonalityAll | src/SceneAnalyzer.js:309-314 | personality scenes are the text scenes, in order, with source `character_personality` and 70% of the confidence |
| SceneAnalysis.CharacterScenesBounds | src/SceneAnalyzer.js:292-318 | character scenes have confidence in (0.21, 1]; the personality ones lie in (0.21, 0.7] and are exactly the reweighted text scenes |
| SceneAnalysis.MergeStep | src/SceneAnalyzer.js:330-343 | one merge step keeps the map well formed |
| SceneAnalysis.Merged | src/SceneAnalyzer.js:327-348 | merging all scenes gives a well-formed map |
| SceneAnalysis.OfType | src/SceneAnalyzer.js:331-332 | the scenes of one type are exactly the input scenes with that type |
| SceneAnalysis.MaxConfIsMax | src/SceneAnalyzer.js:336-339 | the merged confidence is the maximum of the group and is attained |
| SceneAnalysis.CombinedSnoc | src/SceneAnalyzer.js:336-340 | merging one more scene takes the maximum confidence and appends its matches |
| SceneAnalysis.MergedAt | src/SceneAnalyzer.js:327-344 | the map has a type exactly when some scene has it, and then holds the first scene of the type with the maximum confidence and all matches |
| SceneAnalysis.MergedStepAt | src/SceneAnalyzer.js:330-343 | one merge step keeps that correspondence for every type |
| SceneAnalysis.MergedSpec | src/SceneAnalyzer.js:327-344 | the same correspondence for all types at once |
| SceneAnalysis.MergedTypes | src/SceneAnalyzer.js:331-342 | every merged entry is keyed by its own type |
| SceneAnalysis.MergedValuesDistinct | src/SceneAnalyzer.js:327-348 | the merged values have pairwise distinct types |
| SceneAnalysis.RankedPermutes | src/SceneAnalyzer.js:346-348 | ranking is a permutation of the merged values, sorted by non-increasing confidence |
| SceneAnalysis.RankedEntries | src/SceneAnalyzer.js:327-348 | every ranked scene is the combination of the input scenes of its type |
| SceneAnalysis.RankedCovers | src/SceneAnalyzer.js:327-348 | every input type appears among the ranked scenes |
| SceneAnalysis.RankedSpec | src/SceneAnalyzer.js:327-348 | `deduplicateAndRank` is sorted, has one scene per type, combines exactly the input scenes and covers every type |
| SceneAnalysis.RankedConfidences | src/SceneAnalyzer.js:336-339 | merging keeps every confidence inside any interval holding all the inputs |
| SceneAnalysis.WeightBound | src/SceneAnalyzer.js:454 | weighting by a priority in (0, 1] never raises a non-negative confidence |
| SceneAnalysis.GetToolsForScene | src/SceneAnalyzer.js:355-456 | an unknown type gives no tools; otherwise one candidate per table entry, in order, with the scene's type and confidence and `finalPriority = priority × confidence` |
| SceneAnalysis.ToolsForSceneBound | src/SceneAnalyzer.js:449-455 | every candidate's final priority lies in [0, scene confidence] |
| SceneAnalysis.PickStep | src/SceneAnalyzer.js:465-475 | one de-duplication step keeps the map well formed |
| SceneAnalysis.Picked | src/SceneAnalyzer.js:463-476 | de-duplication gives a well-formed map |
| SceneAnalysis.OfName | src/SceneAnalyzer.js:466-467 | the candidates with one name are exactly the inputs with that name |
| SceneAnalysis.BestIsMax | src/SceneAnalyzer.js:468-472 | the kept candidate has the largest final priority of its name |
| SceneAnalysis.BestIsFirst | src/SceneAnalyzer.js:468-472 | the kept candidate is the earliest one of that largest priority, since only a strictly larger one replaces it |
| SceneAnalysis.PickedAt | src/SceneAnalyzer.js:463-476 | a name is kept exactly when some candidate has it, and its entry is the best candidate of that name |
| SceneAnalysis.PickStepAt | src/SceneAnalyzer.js:465-475 | one de-duplication step keeps that correspondence for every name |
| SceneAnalysis.PickedEntries | src/SceneAnalyzer.js:463-476 | every kept entry is an input candidate under its own name |
| SceneAnalysis.PickedValuesDistinct | src/SceneAnalyzer.js:463-476 | the kept candidates have pairwise distinct names |
| SceneAnalysis.SortedPicksSpec | src/SceneAnalyzer.js:479-481 | the sorted candidates are a non-increasing permutation of the kept ones, and the result is their first `min(5, n)` |
| SceneAnalysis.PrioritizedEntries | src/SceneAnalyzer.js:463-482 | every prioritised tool is an input candidate and the best of its name |
| SceneAnalysis.PrioritizedCoversName | src/SceneAnalyzer.js:463-482 | a name of the input is kept, or five tools at least as good as its best candidate were kept instead |
| SceneAnalysis.PrioritizedCovers | src/SceneAnalyzer.js:463-482 | the same for every input candidate |
| SceneAnalysis.PrioritizedSpec | src/SceneAnalyzer.js:463-482 | `prioritizeTools` returns at most five tools, sorted, with distinct names, each the best of its name, and drops a name only for five better ones |
| SceneAnalysis.SumConfBounds | src/SceneAnalyzer.js:492-495 | the sum of confidences in [0, 1] lies in [0, n] |
| SceneAnalysis.CalculateOverallConfidence | src/SceneAnalyzer.js:489-498 | no scenes give 0; otherwise the mean confidence, which is at most 1 |
| SceneAnalysis.HistoryScenesBounds | src/SceneAnalyzer.js:202-211 | scenes found in the recent messages have confidence in (0.3, 1] |
| SceneAnalysis.CandidatesForSpec | src/SceneAnalyzer.js:222-225 | every recommended candidate comes from a ranked scene's table entry, with that scene's confidence and the product as its final priority |
| SceneAnalysis.ContextScenesBounds | src/SceneAnalyzer.js:192-216 | every gathered scene has confidence in (0.21, 1] |
| SceneAnalysis.RankedAnalysis | src/SceneAnalyzer.js:219-231 | ranking scenes with confidences in (0.21, 1] gives distinct types, sorted by confidence and still in (0.21, 1], and their mean as the overall confidence, which lies in [0, 1] |
| SceneAnalysis.AnalysisScenesSpec | src/SceneAnalyzer.js:218-231 | the detected scenes are sorted, one per type, with confidences in (0.21, 1], and the overall confidence is their mean |
| SceneAnalysis.AnalysisSpec | src/SceneAnalyzer.js:183-232 | `analyzeScene` returns ranked scenes as above, at most five recommended tools, each the best candidate of its name from a detected scene, and an overall confidence in [0, 1] |
| SceneAnalysis.SceneAnalyzer.constructor | src/SceneAnalyzer.js:6-10 | the analyser holds the nine-scene catalogue and the tool-mapping table |
| SceneAnalysis.SceneAnalyzer.ScoreScene | src/SceneAnalyzer.js:246-268 | the three inner loops collect the keyword, pattern and clue evidence in order, and the confidence is the score of their counts |
| SceneAnalysis.SceneAnalyzer.AnalyzeText | src/SceneAnalyzer.js:239-286 | `analyzeText` returns the text scenes of the catalogue, and nothing for a falsy text |
| SceneAnalysis.SceneAnalyzer.AnalyzeCharacterContext | src/SceneAnalyzer.js:292-318 | description scenes, then scenario scenes, then the reweighted personality scenes |
| SceneAnalysis.SceneAnalyzer.DeduplicateAndRank | src/SceneAnalyzer.js:327-348 | the loop builds the merged map, and the result is its values sorted by confidence |
| SceneAnalysis.SceneAnalyzer.PrioritizeTools | src/SceneAnalyzer.js:463-482 | the loop builds the de-duplicated map, and the result is its first five values by final priority |
| SceneAnalysis.MessageText | src/SceneAnalyzer.js:205-207 | `message.mes \|\| message.content` as `analyzeText` reads it: a non-empty string `mes` wins; a falsy `mes` gives `content` when that is a string; a truthy non-string `mes` gives no text |
| SceneAnalysis.SceneAnalyzer.AnalyzeMessages | src/SceneAnalyzer.js:202-211 | the scenes of the last five messages, each read from `mes` or else `content` |
| SceneAnalysis.SceneAnalyzer.GatherScenes | src/SceneAnalyzer.js:192-216 | input scenes, then history scenes, then character scenes |
| SceneAnalysis.SceneAnalyzer.AnalyzeScene | src/SceneAnalyzer.js:183-232 | `analyzeScene` returns the analysis specified by `AnalysisOf`, whose properties `AnalysisSpec` states |
| Connection.AttemptResult | src/McpToolManager.js:433-438 | an attempt succeeds exactly when the response is ok and its body parses |
| Connection.RetryBound | src/McpToolManager.js:437-448 | `attempt <= this.maxRetries` compares with the number the option converts to: a number as it is, `true` as 1 |
| Connection.RetrySpec | src/McpToolManager.js:437-453 | the loop returns the first success among the attempts up to the bound and waits `1000·(k+1)` ms after each failed attempt `k` below the bound; with no success it throws the last attempt's error |
| Connection.RequestBounds | src/McpToolManager.js:425-454 | a negative or NaN bound makes no attempt and throws `undefined`; every pause follows an attempt below the bound; success exactly when some attempt up to the bound succeeds |
| Connection.ZeroRetriesMeansTwo | src/McpToolManager.js:386-448 | `maxRetries: 0` still means two retries: three failing attempts and pauses of 1000 and 2000 ms |
| Connection.FractionalRetries | src/McpToolManager.js:386-448 | `maxRetries: 1.5` is kept: two failing attempts, and a pause after each of them, the last included |
| Connection.BooleanRetries | src/McpToolManager.js:386-448 | `maxRetries: true` is kept and compares as 1: two failing attempts and one pause |
| Connection.McpConnection.constructor | src/McpToolManager.js:387-392 | the URL is kept; a falsy `timeout` or `maxRetries` becomes 5000 or 2, and a truthy one is kept as it is; the connection starts disconnected |
| Connection.McpConnection.Request | src/McpToolManager.js:425-454 | the loop's result and pauses are exactly the retry outcome of the request |
| Connection.McpConnection.Initialize | src/McpToolManager.js:394-408 | posts the handshake body to `/initialize`; the connection counts as connected once that succeeds |
| Connection.McpConnection.ListTools | src/McpToolManager.js:410-412 | a GET of `/tools/list` |
| Connection.McpConnection.CallTool | src/McpToolManager.js:414-419 | a POST of `{name, arguments}` to `/tools/call` |
| Connection.McpConnection.Ping | src/McpToolManager.js:421-423 | a GET of `/ping` |
| Connection.McpConnection.Close | src/McpToolManager.js:456-458 | the connection is no longer connected |
| ToolManager.DefaultsForValue | src/McpToolManager.js:53-60 | each listed key of the literal reads the tool's truthy value or the default |
| ToolManager.DefaultsValue | src/McpToolManager.js:53-60 | `serverUrl` is copied as is; the other six keys take their defaults when falsy |
| ToolManager.StoredConfigValue | src/McpToolManager.js:53-62 | because of the trailing spread, every key the tool's object has reads the tool's own value, and a missing key reads the default |
| ToolManager.ApplyEntries | src/McpToolManager.js:52-63 | applying entries keeps the map well formed |
| ToolManager.Configured | src/McpToolManager.js:51-64 | `applyConfiguration` keeps the map well formed |
| ToolManager.ApplyEntriesThrows | src/McpToolManager.js:52-63 | the loop throws exactly when some tool configuration is `null` |
| ToolManager.ApplyEntriesKeys | src/McpToolManager.js:52-63 | without a throw, the map gains exactly the entries' keys |
| ToolManager.ApplyEntriesValue | src/McpToolManager.js:52-63 | each tool's stored configuration comes from its last entry |
| ToolManager.ApplyEntriesUntouched | src/McpToolManager.js:52-63 | keys the entries do not name keep their configuration |
| ToolManager.DefaultToolStored | src/McpToolManager.js:70-94 | a default tool is stored disabled, with its own URL, scene types and priority, and the defaults for timeout, retries and cache timeout |
| ToolManager.DefaultConfigured | src/McpToolManager.js:69-98 | `applyDefaultConfiguration` keeps the map well formed |
| ToolManager.DefaultNamesDistinct | src/McpToolManager.js:70-95 | the four default tool names are distinct |
| ToolManager.DefaultEntry | src/McpToolManager.js:69-98 | after the defaults, each default tool holds its stored configuration |
| ToolManager.DefaultToolsShape | src/McpToolManager.js:70-95 | the default object lists the four tools in order with their configurations |
| ToolManager.DefaultEntries | src/McpToolManager.js:69-98 | applying the defaults runs through the four entries and throws nothing |
| ToolManager.EntriesKeys | src/McpToolManager.js:52-63 | entries with given names add exactly those names and leave the other keys unchanged |
| ToolManager.DefaultConfiguration | src/McpToolManager.js:69-98 | the defaults add exactly the four names and leave every other key unchanged |
| ToolManager.DefaultEnabled | src/McpToolManager.js:70-95 | every default tool is disabled |
| ToolManager.DefaultPriorities | src/McpToolManager.js:70-95 | the default priorities are 1, 0.9, 1 and 0.8 |
| ToolManager.Loaded | src/McpToolManager.js:35-46 | `loadConfiguration` keeps the map well formed |
| ToolManager.FindFunction | src/McpToolManager.js:229 | `find` gives a definition of that name from the list, or none when no definition has it |
| ToolManager.CacheTtlDefault | src/McpToolManager.js:210 | a tool without configuration, or with a falsy `cacheTimeout`, uses 300000 ms |
| ToolManager.CachedResult | src/McpToolManager.js:208-214 | a cached answer is the stored result for that key |
| ToolManager.Dispatch | src/McpToolManager.js:217-224 | an unknown tool throws "not found" and a disabled tool throws "disabled" |
| ToolManager.BuiltinDispatch | src/McpToolManager.js:228-233 | an enabled built-in tool answers exactly when it has the function, with the handler's result |
| ToolManager.AfterCall | src/McpToolManager.js:248-251 | storing after a call keeps the cache well formed |
| ToolManager.RepeatHitsCache | src/McpToolManager.js:207-258 | repeating a call that reached the tool and succeeded, within the TTL, is answered from the cache with the same result |
| ToolManager.Settle | src/McpToolManager.js:264-282 | a success settles to a report with the result; a failure settles to a report with the message; a thrown `undefined` rejects the promise |
| ToolManager.BatchOutcomes | src/McpToolManager.js:263-286 | a batch has one outcome per call |
| ToolManager.StoreAll | src/McpToolManager.js:248-251 | storing the batch's outcomes keeps the cache well formed |
| ToolManager.StoreAllStep | src/McpToolManager.js:248-251 | storing one more outcome of the batch is one more cache update |
| ToolManager.BatchIdenticalCalls | src/McpToolManager.js:263-286 | two identical calls in one batch get the same outcome |
| ToolManager.DescribeAll | src/McpToolManager.js:305-309 | the descriptors map one to one |
| ToolManager.Summary | src/McpToolManager.js:294-310 | a disabled tool, or one whose scene types lack the scene, is skipped; an enabled, matching tool is listed under its name |
| ToolManager.ListedStep | src/McpToolManager.js:294-311 | one more tool of the listing loop |
| ToolManager.ListedPrefixErr | src/McpToolManager.js:294-311 | once a tool throws, the listing throws that error |
| ToolManager.ListedMembers | src/McpToolManager.js:294-311 | the listing holds exactly the kept tools, each once |
| ToolManager.AvailableToolsSpec | src/McpToolManager.js:291-314 | `getAvailableTools` lists exactly the enabled tools that match the scene, by non-increasing priority |
| ToolManager.BuiltinAlwaysKept | src/McpToolManager.js:194-202 | a built-in tool is enabled and has no scene types, so it is always listed |
| ToolManager.HealthOf | src/McpToolManager.js:321-337 | a built-in tool is healthy and a remote one without a connection is disconnected |
| ToolManager.HealthReport | src/McpToolManager.js:319-346 | the report has one entry per tool, in order, each that tool's health |
| ToolManager.HealthReportStep | src/McpToolManager.js:322-343 | one more tool of the health loop |
| ToolManager.HealthPrefixErr | src/McpToolManager.js:322-343 | once a tool's check throws out of the loop, `checkHealth` throws that error |
| ToolManager.RemoteHealth | src/McpToolManager.js:326-342 | a ping that answers gives healthy with the connection time; a failing ping gives its message; only a thrown `undefined` escapes |
| ToolManager.McpToolManager.constructor | src/McpToolManager.js:6-12 | four empty maps, not initialised |
| ToolManager.McpToolManager.ApplyConfiguration | src/McpToolManager.js:51-64 | the new configuration map and what is thrown are given by `Configured` |
| ToolManager.McpToolManager.ApplyDefaultConfiguration | src/McpToolManager.js:69-98 | the new configuration map is `DefaultConfigured` of the old one |
| ToolManager.McpToolManager.LoadConfiguration | src/McpToolManager.js:35-46 | the new configuration map is `Loaded` of the old one and the fetch outcome |
| ToolManager.McpToolManager.ConnectToService | src/McpToolManager.js:130-156 | the connection gets the configured URL, timeout and retries as they are stored; its outcome is the handshake and listing for that configuration; on success the tool and connection are stored, on failure nothing changes |
| ToolManager.McpToolManager.ConnectToServices | src/McpToolManager.js:103-125 | every enabled tool with a URL whose handshake and listing succeed is registered as a remote tool with a fresh connection made with its options; every other key keeps its tool and connection entries |
| ToolManager.McpToolManager.ConnectOne | src/McpToolManager.js:106-110 | one pass of the loop: the tool is registered exactly when it connects, and no other key changes |
| ToolManager.McpToolManager.RegisterTool | src/McpToolManager.js:194-202 | an existing name is left alone; a new name gets an enabled built-in entry |
| ToolManager.McpToolManager.RegisterBuiltinTools | src/McpToolManager.js:161-189 | both built-in tools are present afterwards, the old tools are kept and nothing else is added |
| ToolManager.McpToolManager.Initialize | src/McpToolManager.js:17-30 | a second call changes nothing; the first loads the configuration, registers every tool that connects, adds the built-ins and marks the manager initialised; every new entry is a connected remote tool or a built-in |
| ToolManager.McpToolManager.Resolve | src/McpToolManager.js:207-246 | what a call yields, and whether it came from the cache, is `Outcome` |
| ToolManager.McpToolManager.CallTool | src/McpToolManager.js:207-258 | the result is the outcome, and a fresh success is cached with the time |
| ToolManager.McpToolManager.CallTools | src/McpToolManager.js:263-286 | every call settles as `Settle` of its outcome against the cache as the batch found it; the cache then holds all stored outcomes |
| ToolManager.McpToolManager.ResolveAll | src/McpToolManager.js:264-279 | all calls of a batch are resolved before any stores its result |
| ToolManager.McpToolManager.StoreOutcomes | src/McpToolManager.js:248-251 | the completions store their outcomes in order |
| ToolManager.McpToolManager.GetAvailableTools | src/McpToolManager.js:291-314 | the listing is `AvailableTools` |
| ToolManager.McpToolManager.ToolHealth | src/McpToolManager.js:323-338 | one tool's health is `HealthOf` |
| ToolManager.McpToolManager.CheckHealth | src/McpToolManager.js:319-346 | the report is `HealthReport` over the tools in order |
| ToolManager.McpToolManager.ClearCache | src/McpToolManager.js:351-361 | with a name, exactly the keys starting with `name:` go and the rest keep their entries; without one, the cache is empty |
| ToolManager.McpToolManager.Disconnect | src/McpToolManager.js:366-380 | every connection is closed; connections, tools and cache are emptied; the configuration stays |
| IntegrationEngine.LazyEnd | src/McpIntegrationEngine.js:398-400 | a lazy end lies between the start and the end of the text |
| IntegrationEngine.LazyEndSpec | src/McpIntegrationEngine.js:398-400 | the lazy `.+?` stops at the first end on the same line where an ending follows |
| IntegrationEngine.EndFrom | src/McpIntegrationEngine.js:398-400 | a capture from a start ends after the prefix and inside the text |
| IntegrationEngine.EndFromSpec | src/McpIntegrationEngine.js:398-400 | from a start, the end found is the shortest capture, and there is none exactly when no capture starts there |
| IntegrationEngine.MatchFrom | src/McpIntegrationEngine.js:404 | a match found from a position starts at or after it |
| IntegrationEngine.MatchFromSound | src/McpIntegrationEngine.js:404 | the match found is a capture, with the shortest end at its start |
| IntegrationEngine.MatchFromComplete | src/McpIntegrationEngine.js:404 | a capture at or after the position is found, at that start or earlier |
| IntegrationEngine.FirstMatch | src/McpIntegrationEngine.js:404 | `text.match(pattern)` lies inside the text |
| IntegrationEngine.FirstMatchSpec | src/McpIntegrationEngine.js:404 | the match is the leftmost capture with the shortest end, and there is none exactly when the pattern matches nowhere |
| IntegrationEngine.LocationInStep | src/McpIntegrationEngine.js:403-408 | the patterns are tried in turn, and the first that matches gives the result |
| IntegrationEngine.LocationInNone | src/McpIntegrationEngine.js:395-411 | `null` exactly when no pattern matches |
| IntegrationEngine.LocationInFound | src/McpIntegrationEngine.js:395-411 | a found location is the trimmed capture of the first pattern that matches |
| IntegrationEngine.FoundByFirst | src/McpIntegrationEngine.js:403-407 | when the first pattern matches, its capture is the result |
| IntegrationEngine.FoundByShift | src/McpIntegrationEngine.js:403-407 | a pattern that matches nowhere is skipped |
| IntegrationEngine.FirstMappedSpec | src/McpIntegrationEngine.js:243-250 | the function of the first detected scene with a mapping wins; otherwise the first mapped function, and otherwise the tool name |
| IntegrationEngine.SelectFunctionSpec | src/McpIntegrationEngine.js:213-251 | an unmapped tool uses its own name; a mapped tool uses the function for the first matching scene, or else its first function |
| IntegrationEngine.MessagesJson | src/McpIntegrationEngine.js:284 | `recentMessages` holds one entry per message, and each entry is the message object itself: every property, `mes` or not, reads as it does in the chat |
| IntegrationEngine.MessagesJsonInjective | src/McpIntegrationEngine.js:284 | two message lists give the same `recentMessages` only when they are equal, so a change to any property of a message changes the request and its cache key |
| IntegrationEngine.CommonArguments | src/McpIntegrationEngine.js:259-267 | the common arguments are only `query`, `character` and `context` |
| IntegrationEngine.ToolArguments | src/McpIntegrationEngine.js:256-297 | the arguments are an object whose `query` is the user input when that is truthy |
| IntegrationEngine.WebSearchArguments | src/McpIntegrationEngine.js:277-280 | the search tool asks for three results with safe search on |
| IntegrationEngine.RagSearchArguments | src/McpIntegrationEngine.js:288-293 | the document search asks for five results, and with a character its `context` becomes the description |
| IntegrationEngine.MemoryArguments | src/McpIntegrationEngine.js:282-286 | with a chat, the memory tool gets the last five messages |
| IntegrationEngine.OtherToolArguments | src/McpIntegrationEngine.js:270-294 | any other tool gets only the common arguments |
| IntegrationEngine.WeatherLocation | src/McpIntegrationEngine.js:271-275 | with a scenario, the weather tool gets the location extracted from it, or `null` |
| IntegrationEngine.AboveFloor | src/McpIntegrationEngine.js:168 | the filter keeps exactly the tools above final priority 0.3 |
| IntegrationEngine.Selected | src/McpIntegrationEngine.js:166-168 | the tools to call are at most `maxToolsPerGeneration`, and are exactly those of the first `maxToolsPerGeneration` above 0.3 |
| IntegrationEngine.CallsFor | src/McpIntegrationEngine.js:176-181 | one call per selected tool |
| IntegrationEngine.Settlements | src/McpIntegrationEngine.js:184-189 | one settled result per call |
| IntegrationEngine.SummaryParts | src/McpIntegrationEngine.js:335-364 | at most one summary part per result |
| IntegrationEngine.SummaryPartsOk | src/McpIntegrationEngine.js:337-364 | the summary loop succeeds exactly when every result's case does |
| IntegrationEngine.SummaryPartsFirstErr | src/McpIntegrationEngine.js:337-364 | when it throws, it throws the error of the first failing result |
| IntegrationEngine.SummaryPartsPrefixErr | src/McpIntegrationEngine.js:337-364 | once a prefix throws, the whole loop throws that error |
| IntegrationEngine.CountPartOfList | src/McpIntegrationEngine.js:346-354 | a non-empty list gives the text with its length; an empty one gives no part |
| IntegrationEngine.ToolLinesContain | src/McpIntegrationEngine.js:379-381 | the formatted block holds a line for every result |
| IntegrationEngine.EnhancementTextSpec | src/McpIntegrationEngine.js:372-390 | no text without results; otherwise it starts with the header, ends with the footer, and holds every result's line |
| IntegrationEngine.SuccessCount | src/McpIntegrationEngine.js:417-423 | at most one success per result, and all of them succeed exactly when the count is full |
| IntegrationEngine.Tallied | src/McpIntegrationEngine.js:416-424 | every result counts once, as a success or a failure, and the other counters stay |
| IntegrationEngine.SuccessRateAsWrittenExceedsHundred | src/McpIntegrationEngine.js:432-434 | one batch of three successes from fresh counters reports "300.00%" |
| IntegrationEngine.SuccessRateAtMostHundred | src/McpIntegrationEngine.js:432-434 | the corrected rate is "0%" or at most "100.00%", and exactly "100.00%" without failures |
| IntegrationEngine.Patched | src/McpIntegrationEngine.js:441-443 | each setting the patch names takes the new value and the others stay |
| IntegrationEngine.PatchedIdempotent | src/McpIntegrationEngine.js:441-443 | applying the same settings twice is applying them once |
| IntegrationEngine.McpIntegrationEngine.constructor | src/McpIntegrationEngine.js:9-27 | a fresh analyser and tool manager, disabled, with the default settings and zero counters |
| IntegrationEngine.McpIntegrationEngine.Initialize | src/McpIntegrationEngine.js:32-44 | the tool manager is initialised and the engine is enabled, since no error escapes `initialize` |
| IntegrationEngine.McpIntegrationEngine.SelectToolFunction | src/McpIntegrationEngine.js:213-251 | the function chosen is `SelectFunction` |
| IntegrationEngine.McpIntegrationEngine.ExtractLocationFromText | src/McpIntegrationEngine.js:395-411 | the location is the first capture of the three patterns |
| IntegrationEngine.McpIntegrationEngine.MatchLocation | src/McpIntegrationEngine.js:403-410 | the loop tries the patterns in order |
| IntegrationEngine.McpIntegrationEngine.GenerateResultSummary | src/McpIntegrationEngine.js:330-367 | the summary is the parts joined by "；", or what the loop throws |
| IntegrationEngine.McpIntegrationEngine.ProcessToolResults | src/McpIntegrationEngine.js:302-325 | the kept results are exactly the fulfilled successful ones, with the summary of them |
| IntegrationEngine.McpIntegrationEngine.FormatMcpEnhancement | src/McpIntegrationEngine.js:372-390 | the text is `EnhancementText` |
| IntegrationEngine.McpIntegrationEngine.PromptContext | src/McpIntegrationEngine.js:91-101 | a prompt context is set exactly when the engine is enabled and has results |
| IntegrationEngine.McpIntegrationEngine.OnGenerationStarted | src/McpIntegrationEngine.js:60-86 | nothing happens when disabled, on a dry run, without auto-trigger, or for quiet and impersonate generations; otherwise the generation is counted, and a batch is triggered exactly when the analysis is confident and selects a tool; an untriggered generation changes nothing else, and a triggered one leaves the cache, the counters and `mcpEnhancement` as `executeToolCalls` does (`BatchDone`): every call's outcome is stored, the batch is counted, and a timeout or a throw counts one failure while success publishes and tallies the results |
| IntegrationEngine.McpIntegrationEngine.ExecuteToolCalls | src/McpIntegrationEngine.js:158-208 | with nothing selected nothing changes; otherwise one trigger is counted, the batch fills the cache, and a timeout or a throw counts one failure while success publishes and tallies the results |
| IntegrationEngine.McpIntegrationEngine.Conclude | src/McpIntegrationEngine.js:191-207 | after the batch: a timeout or an error thrown while processing counts one failure; otherwise the results are published and tallied |
| IntegrationEngine.McpIntegrationEngine.UpdateStats | src/McpIntegrationEngine.js:416-424 | the counters become `Tallied` |
| IntegrationEngine.McpIntegrationEngine.GetStats | src/McpIntegrationEngine.js:429-436 | the counters and the corrected success rate |
| IntegrationEngine.McpIntegrationEngine.UpdateSettings | src/McpIntegrationEngine.js:441-443 | the settings become the patched settings |
| IntegrationEngine.McpIntegrationEngine.SetEnabled | src/McpIntegrationEngine.js:448-450 | the flag is set and nothing else changes |
| IntegrationEngine.McpIntegrationEngine.Cleanup | src/McpIntegrationEngine.js:455-458 | the tool manager disconnects and the engine is disabled |
| ClientPlugin.WithDefaultsValue | index.js:68-73 | after defaulting, a key reads its own value when defined and the default otherwise |
| ClientPlugin.WithDefaultsFixed | index.js:68-73 | when every default key is already defined, nothing changes |
| ClientPlugin.WithDefaultsIdempotent | index.js:63-74 | running `initializeSettings` twice is running it once |
| ClientPlugin.DefaultsComplete | index.js:63-66 | fresh settings are exactly the defaults |
| ClientPlugin.ToolSettingUpdatedSpec | index.js:515-522 | the update fails exactly when `tools` is not an object or the entry is truthy but not an object; otherwise only `tools[toolName][property]` changes |
| ClientPlugin.SettingsStore.constructor | index.js:63-64 | the store holds the given settings entry |
| ClientPlugin.SettingsStore.InitializeSettings | index.js:63-74 | missing settings become the defaults; existing ones gain every missing default key and keep their own values |
| ClientPlugin.SettingsStore.FillDefaults | index.js:68-73 | the loop over the default keys fills the undefined ones |
| ClientPlugin.SettingsStore.UpdateSettings | index.js:93-96 | `Object.assign` of the new values; it throws when there are no settings |
| ClientPlugin.SettingsStore.UpdateToolSetting | index.js:515-522 | the settings become `ToolSettingUpdated`, or stay as they were when it throws |
| ClientPlugin.ObjectEntries | index.js:150 | the entries of an object are its fields |
| ClientPlugin.SuggestionsThrow | index.js:150-158 | the loop throws exactly when some tool entry's checks throw |
| ClientPlugin.SuggestionsMembers | index.js:150-158 | the suggestions are exactly the enabled tools that offer the scene type |
| ClientPlugin.SuggestedToolsSpec | index.js:146-161 | `getSuggestedTools` is sorted by priority and holds exactly the offered tools |
| ClientPlugin.MatchedTypesSnoc | index.js:126-134 | the matched types of one more scene type |
| ClientPlugin.SceneEntriesSpec | index.js:126-141 | every entry has confidence 0.8 and its suggested tools, and the types are exactly those with a matching pattern |
| ClientPlugin.SortDescConstant | index.js:143 | sorting entries with equal confidence keeps their order |
| ClientPlugin.ClientScenesSpec | index.js:119-144 | `analyzeScene` gives, in catalogue order, one entry per matching type of the lowered input, each with confidence 0.8 |
| ClientPlugin.ClientSceneAnalyzer.constructor | index.js:102-117 | the analyser holds the three scene types and their patterns |
| ClientPlugin.ClientSceneAnalyzer.AnalyzeScene | index.js:119-144 | the result is `ClientScenes` |
| ClientPlugin.ClientSceneAnalyzer.GetSuggestedTools | index.js:146-161 | the result is `SuggestedTools` |
| ClientPlugin.SuggestionsPrefixErr | index.js:150-158 | once a prefix throws, the loop throws that error |
| ClientPlugin.SceneEntriesPrefixErr | index.js:126-141 | once a prefix throws, the loop throws that error |
| ClientPlugin.ClientCall | index.js:178-218 | a call keeps the cache well formed |
| ClientPlugin.ClientCallRefused | index.js:182-184 | a call fails exactly when the tool is not enabled, and then changes nothing |
| ClientPlugin.ClientCallCounts | index.js:178-218 | a fresh cache hit counts a hit and returns the cached result; otherwise the simulated result is counted as a call and a success and cached when caching is on; failures never change |
| ClientPlugin.ClientCallRepeat | index.js:186-209 | with caching on and a positive TTL, an immediate repeat returns the same result from the cache and counts one hit |
| ClientPlugin.ClientMcpToolManager.constructor | index.js:168-176 | an empty cache and zero counters |
| ClientPlugin.ClientMcpToolManager.CallTool | index.js:178-218 | the result, cache and counters are `ClientCall` |
| ClientPlugin.ClientMcpToolManager.GetStats | index.js:231-233 | a copy of the counters |
| ClientPlugin.ClientMcpToolManager.ClearCache | index.js:235-245 | with a name, exactly the keys starting with `name:` go; without one, everything goes; the counters stay |
| ClientPlugin.RunCalls | index.js:280-292 | the calls keep the cache well formed, give at most one result per tool, and never count a failure |
| ClientPlugin.RunCallsStep | index.js:280-292 | one more iteration of the call loop |
| ClientPlugin.Iterations | index.js:278-280 | the loop runs at most once per suggested tool |
| ClientPlugin.IterationsSpec | index.js:278-280 | the loop runs for exactly the indexes below both bounds |
| ClientPlugin.ProcessedSpec | index.js:258-304 | `null` exactly when disabled, without auto-trigger, with no scene or below the threshold; then nothing changes; otherwise the best scene, its results and the time |
| ClientPlugin.ClientMcpIntegrationEngine.constructor | index.js:252-256 | a fresh analyser and tool manager, enabled |
| ClientPlugin.ClientMcpIntegrationEngine.ProcessUserInput | index.js:258-304 | the outcome, cache and counters are `Processed` |
| ClientPlugin.ClientMcpIntegrationEngine.CallSuggested | index.js:278-292 | the loop's results, cache and counters are `RunCalls` over the first tools |
| ClientPlugin.ClientMcpIntegrationEngine.CallNext | index.js:281-291 | one iteration: a successful call's result is appended |

## Left out

- The DOM, jQuery and the settings UI (`initializeSettingsUI`, `loadSettingsToUI`, `bindSettingsEvents`, `bindToolSettingsEvents`, `updateStatsDisplay`) are not part of this model.
- `registerEventListeners` and the SillyTavern event wiring are not modelled: the handlers are called directly.
- `buildAnalysisContext` reads the live chat through `getContext()`. The context it builds is a parameter of `OnGenerationStarted`.
- `saveSettingsDebounced` and all console logging are left out. They have no effect on the modelled state.
- A property whose value is `undefined` is modelled as an absent key.
- Strings are sequences of characters, not UTF-16 code units. `toLowerCase` lowers A–Z and U+212A KELVIN SIGN and keeps every other character. JavaScript also lowers other letters, but to non-ASCII letters, which no keyword, context clue or client pattern contains. The one other character whose lower case holds an ASCII letter, U+0130, lowers to `i` followed by U+0307. No keyword or clue ends in `i`, so the keyword, clue and client-pattern matches are the same as in JavaScript.
- The regular expressions are modelled as data: literal alternatives joined by `.*?` on one line. The case-insensitive flag is not modelled. The `SceneAnalyzer` patterns are Chinese, and the client patterns are tested on text that is already lower-cased.
- Numbers are decimals, not IEEE doubles. `toFixed` ties and exponent notation in `JSON.stringify` are not modelled.
- `toLocaleString` is a function parameter.
- The `timeoutMs` race in `executeToolCalls` is a boolean input. The calls of a batch run one after another. A batch that times out still completes and fills the cache.
- The batch order is fixed: every call reads the cache before any completion stores a result.
- `McpIntegrationEngine.updateSettings` takes only the six known setting keys.
- A non-number priority sorts as 0. A numeric string or a one-element array converts to NaN rather than to its number. This affects priorities, a stored `maxRetries`, the server-side cache lifetime `cacheTimeout` (`ToolManager.CacheTtl`), the client cache lifetime (`ClientPlugin.Fresh`), and the client's `confidenceThreshold` and `maxToolsPerGeneration` (`ClientPlugin.Processed`).
- ClientPlugin.ToolSettingUpdated: an array given as `tools` or as the tool's entry is treated as an error. JavaScript writes the property, because arrays are objects.
- Property access on an array or a string reads only `length`.
- A settings entry that is not an object is not modelled.
- Every chat entry is a message object. A `null` entry, on which `message.mes` throws, is not modelled.
- `simulateToolCall` never fails, so the `catch` branch of the client `callTool` is unreachable. It is modelled as written, and `failedCalls` is proved never to change.
- The connection and engine constructors take their tables literally. `ClientSceneAnalyzer`'s pattern table is a parameter of `ClientScenes` and `Processed`.
- ClientPlugin.Iterations: the loop bound `Math.min(length, max)` is computed once, as the number of iterations, rather than compared against a real on each pass.
- The matched scene's `matches` arrays are shared with the input scenes in `deduplicateAndRank`. That aliasing is not modelled because the inputs are not used afterwards.
- ToolManager.McpToolManager.ConnectToServices: the connections are made one after another, in configuration order. `Promise.allSettled` runs them concurrently, so remote tools enter the `tools` map in completion order there, not in configuration order. All of them share one `now` for `lastConnected`.
- `Date.now()` is read once per call as `now`.
- The built-in handlers' results are host values given as parameters.

## Findings

| source | as written | input that shows it | evidently intended | confidence | as-written member | corrected member |
|---|---|---|---|---|---|---|
| src/McpIntegrationEngine.js:432-434 | `successRate` divides successful calls by `toolCallsTriggered`, which counts batches, not calls | one batch of three successful calls from fresh counters: 3 / 1 × 100 gives "300.00%" | the share of successful calls among all calls, at most 100% | not executed | IntegrationEngine.SuccessRateAsWrittenExceedsHundred | IntegrationEngine.SuccessRateAtMostHundred |
