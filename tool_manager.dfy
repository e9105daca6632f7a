/** The tool registry of the engine (`McpToolManager` in
    src/McpToolManager.js): per-tool configuration, the registered tools
    (built-in handlers or remote servers reached through a connection), the
    result cache, and the operations that call, list, check and forget them.

    The clock and the browser facts the built-in handlers read are a `Host`
    value; the network is a `Network` oracle. Calls the source runs
    concurrently are taken in iteration order. */
module ToolManager {
  import opened Common
  import opened OrderedMaps
  import opened JsonValues
  import opened Failures
  import opened Connection

  // ---------------------------------------------------------------------------
  // Data

  /** What the host gives the built-in handlers: the clock (`Date.now()` and
      its ISO form), the time zone, and the browser's `navigator` facts. */
  datatype Host = Host(now: int, isoTime: string, timeZone: string,
                       userAgent: string, language: string, platform: string, cookieEnabled: bool)

  /** The two built-in handlers. */
  datatype Handler = DatetimeHandler | BrowserInfoHandler

  /** A built-in tool function: `{ name, description, inputSchema, handler }`. */
  datatype ToolDefinition = ToolDefinition(name: string, description: string, inputSchema: Json, handler: Handler)

  /** A registered tool: built-in (`isBuiltin`), or served by a remote
      server whose `/tools/list` answer is `tools`. */
  datatype ToolInfo =
    | Builtin(config: seq<Field>, functions: seq<ToolDefinition>)
    | Remote(config: seq<Field>, connection: Option<McpConnection>, tools: Json, lastConnected: int)

  /** A cached result and the time it was stored. */
  datatype CacheEntry = CacheEntry(result: Json, timestamp: int)

  /** Everything outside the manager a call may touch. */
  datatype Env = Env(host: Host, net: Network)

  /** What `fetch('/api/plugins/mcp-integration/config')` yields: a rejection,
      or a response with its `ok` flag and what `response.json()` gives. */
  datatype ConfigFetch = FetchRejected | Fetched(ok: bool, body: Result<Json, string>)

  /** One entry of a `callTools` batch. */
  datatype ToolCall = ToolCall(toolName: string, fn: string, args: Json, startTime: int)

  /** The object a `callTools` promise fulfils with. */
  datatype CallReport = CallReport(toolName: string, fn: string, success: bool,
                                   result: Option<Json>, error: Option<string>, executionTime: int)

  /** An element of `Promise.allSettled`. */
  datatype Settled = Fulfilled(report: CallReport) | Rejected(reason: Failure)

  /** An element of `getAvailableTools()`. */
  datatype ToolSummary = ToolSummary(name: string, priority: Option<Json>, sceneTypes: Json, tools: seq<Json>)

  /** An entry of `checkHealth()`. */
  datatype Health =
    | Healthy(builtin: bool, lastConnected: Option<int>)
    | Disconnected
    | Unhealthy(error: string, builtin: bool)

  // ---------------------------------------------------------------------------
  // Configuration

  /** `Object.entries(j)`: an object's fields, an array's or string's
      elements under their indices; nothing for the other values. */
  function OwnEntries(j: Json): seq<Field> {
    match j
    case JObj(fields) => fields
    case JArr(items) => seq(|items|, i requires 0 <= i < |items| => Field(NatToString(i), items[i]))
    case JStr(s) => seq(|s|, i requires 0 <= i < |s| => Field(NatToString(i), JStr([s[i]])))
    case _ => []
  }

  /** The value a stored tool configuration has for a key that the tool's
      own configuration does not set. */
  function DefaultFor(key: string): Lookup {
    if key == "enabled" then Value(JBool(false))
    else if key == "timeout" then Value(Int(5000))
    else if key == "maxRetries" then Value(Int(2))
    else if key == "cacheTimeout" then Value(Int(300000))
    else if key == "priority" then Value(Int(1))
    else if key == "sceneTypes" then Value(JArr([]))
    else Undefined
  }

  /** The keys of the literal in front of `...toolConfig`, in its order. */
  function DefaultKeys(): seq<string> {
    ["enabled", "serverUrl", "timeout", "maxRetries", "cacheTimeout", "priority", "sceneTypes"]
  }

  /** The literal in front of `...toolConfig`, for the keys `keys`: each
      `toolConfig.key || default`, and `serverUrl` as it is (left out when
      undefined). */
  function DefaultsFor(tc: Json, keys: seq<string>): seq<Field>
    requires !tc.JNull?
  {
    if keys == [] then []
    else
      var k := keys[0];
      var x := Prop(tc, k);
      var first := if DefaultFor(k).Value? then [Field(k, Or(x, DefaultFor(k).v))]
                   else if x.Value? then [Field(k, x.v)] else [];
      first + DefaultsFor(tc, keys[1..])
  }

  function ConfigDefaults(tc: Json): seq<Field>
    requires !tc.JNull?
  {
    DefaultsFor(tc, DefaultKeys())
  }

  /** The configuration `applyConfiguration` stores for one tool; reading
      `toolConfig.enabled` on `null` throws. */
  function StoredConfig(tc: Json): Result<seq<Field>, Failure> {
    if tc.JNull? then Err(TypeError("Cannot read properties of null (reading 'enabled')"))
    else Ok(Spread(ConfigDefaults(tc), OwnEntries(tc)))
  }

  /** The literal in front of the spread reads, for a key it names, the
      tool's own value where that is truthy and the default otherwise (the
      server URL as it is); every other key is undefined in it. */
  lemma {:induction false} DefaultsForValue(tc: Json, keys: seq<string>, k: string)
    requires tc.JObj?
    ensures FieldValue(DefaultsFor(tc, keys), k) ==
      if k !in keys then Undefined
      else if DefaultFor(k).Value? then Value(Or(FieldValue(tc.fields, k), DefaultFor(k).v))
      else FieldValue(tc.fields, k)
  {
    if keys != [] {
      DefaultsForValue(tc, keys[1..], k);
      var x := Prop(tc, keys[0]);
      var rest := DefaultsFor(tc, keys[1..]);
      if DefaultFor(keys[0]).Value? || x.Value? {
        var f := DefaultsFor(tc, keys)[0];
        assert DefaultsFor(tc, keys) == [f] + rest;
        assert ([f] + rest)[1..] == rest;
      } else {
        assert DefaultsFor(tc, keys) == rest;
      }
    }
  }

  lemma DefaultsValue(tc: Json, k: string)
    requires tc.JObj?
    ensures FieldValue(ConfigDefaults(tc), k) ==
      if k == "serverUrl" then FieldValue(tc.fields, k)
      else if DefaultFor(k).Value? then Value(Or(FieldValue(tc.fields, k), DefaultFor(k).v))
      else Undefined
  {
    DefaultsForValue(tc, DefaultKeys(), k);
  }

  /** A stored tool configuration holds the tool's own value for every key
      it sets and the default for every key it leaves out. */
  lemma StoredConfigValue(tc: Json, k: string)
    requires tc.JObj? && DistinctKeys(tc.fields)
    ensures StoredConfig(tc).Ok?
    ensures FieldValue(StoredConfig(tc).value, k) ==
      if HasField(tc.fields, k) then FieldValue(tc.fields, k) else DefaultFor(k)
  {
    var d := ConfigDefaults(tc);
    var fs := tc.fields;
    assert StoredConfig(tc) == Ok(Spread(d, fs));
    SpreadValue(d, fs, k);
    if !HasField(fs, k) {
      FieldValueDefined(fs, k);
      DefaultsValue(tc, k);
    }
  }

  /** The entries of `config.tools || {}`; `config.tools` throws on `null`. */
  function ToolEntries(cfg: Json): Result<seq<Field>, Failure> {
    if cfg.JNull? then Err(TypeError("Cannot read properties of null (reading 'tools')"))
    else
      var t := Prop(cfg, "tools");
      Ok(if Truthy(t.AsOption()) then OwnEntries(t.v) else [])
  }

  /** The loop of `applyConfiguration` over `entries`: each stored in turn;
      the first entry that throws stops it, the earlier ones staying set. */
  function ApplyEntries(config: OMap<seq<Field>>, entries: seq<Field>): (r: (OMap<seq<Field>>, Option<Failure>))
    requires config.Valid()
    ensures r.0.Valid()
    decreases |entries|
  {
    if entries == [] then (config, None)
    else match StoredConfig(entries[0].value)
      case Err(e) => (config, Some(e))
      case Ok(c) => ApplyEntries(config.Set(entries[0].key, c), entries[1..])
  }

  /** `applyConfiguration(cfg)`: the new configuration map and the error
      thrown, if any. */
  function Configured(config: OMap<seq<Field>>, cfg: Json): (r: (OMap<seq<Field>>, Option<Failure>))
    requires config.Valid()
    ensures r.0.Valid()
  {
    match ToolEntries(cfg)
    case Err(e) => (config, Some(e))
    case Ok(es) => ApplyEntries(config, es)
  }

  /** Applying `entries` throws exactly when one of them is null. */
  lemma {:induction false} ApplyEntriesThrows(config: OMap<seq<Field>>, entries: seq<Field>)
    requires config.Valid()
    ensures ApplyEntries(config, entries).1.None? <==> forall i :: 0 <= i < |entries| ==> !entries[i].value.JNull?
    decreases |entries|
  {
    if entries != [] && !entries[0].value.JNull? {
      var rest := entries[1..];
      ApplyEntriesThrows(config.Set(entries[0].key, StoredConfig(entries[0].value).value), rest);
      assert forall i :: 0 <= i < |rest| ==> rest[i] == entries[i + 1];
      assert (forall i :: 0 <= i < |entries| ==> !entries[i].value.JNull?) <==>
             (forall i :: 0 <= i < |rest| ==> !rest[i].value.JNull?) by {
        if forall i :: 0 <= i < |rest| ==> !rest[i].value.JNull? {
          forall i | 0 <= i < |entries| ensures !entries[i].value.JNull? {
            if i > 0 {
              assert entries[i] == rest[i - 1];
            }
          }
        }
      }
    }
  }

  /** Applying `entries` without throwing adds exactly their keys. */
  lemma {:induction false} ApplyEntriesKeys(config: OMap<seq<Field>>, entries: seq<Field>, k: string)
    requires config.Valid()
    requires ApplyEntries(config, entries).1.None?
    ensures ApplyEntries(config, entries).0.Has(k) <==> config.Has(k) || exists i :: 0 <= i < |entries| && entries[i].key == k
    decreases |entries|
  {
    if entries != [] {
      var rest := entries[1..];
      ApplyEntriesKeys(config.Set(entries[0].key, StoredConfig(entries[0].value).value), rest, k);
      if exists i :: 0 <= i < |rest| && rest[i].key == k {
        var i :| 0 <= i < |rest| && rest[i].key == k;
        assert entries[i + 1].key == k;
      }
      if exists i :: 0 <= i < |entries| && entries[i].key == k {
        var i :| 0 <= i < |entries| && entries[i].key == k;
        if i > 0 {
          assert rest[i - 1].key == k;
        }
      }
    }
  }

  /** Applying `entries` without throwing stores each entry whose key does
      not come again later. */
  lemma {:induction false} ApplyEntriesValue(config: OMap<seq<Field>>, entries: seq<Field>, i: nat)
    requires config.Valid()
    requires ApplyEntries(config, entries).1.None?
    requires i < |entries| && forall j :: i < j < |entries| ==> entries[j].key != entries[i].key
    ensures StoredConfig(entries[i].value).Ok?
    ensures ApplyEntries(config, entries).0.Has(entries[i].key)
    ensures ApplyEntries(config, entries).0.Get(entries[i].key) == StoredConfig(entries[i].value).value
    decreases |entries|
  {
    ApplyEntriesThrows(config, entries);
    assert !entries[0].value.JNull? && !entries[i].value.JNull?;
    var rest := entries[1..];
    var c' := config.Set(entries[0].key, StoredConfig(entries[0].value).value);
    assert ApplyEntries(config, entries) == ApplyEntries(c', rest);
    if i > 0 {
      assert entries[i] == rest[i - 1];
      forall j | i - 1 < j < |rest| ensures rest[j].key != rest[i - 1].key {
        assert rest[j] == entries[j + 1];
      }
      ApplyEntriesValue(c', rest, i - 1);
    } else {
      forall j | 0 <= j < |rest| ensures rest[j].key != entries[0].key {
        assert rest[j] == entries[j + 1];
      }
      ApplyEntriesUntouched(c', rest, entries[0].key);
    }
  }

  /** Applying `entries` leaves every key they do not name as it was. */
  lemma {:induction false} ApplyEntriesUntouched(config: OMap<seq<Field>>, entries: seq<Field>, k: string)
    requires config.Valid()
    requires forall i :: 0 <= i < |entries| ==> entries[i].key != k
    ensures var r := ApplyEntries(config, entries).0;
      (r.Has(k) <==> config.Has(k)) && (config.Has(k) ==> r.Get(k) == config.Get(k))
    decreases |entries|
  {
    if entries != [] && !entries[0].value.JNull? {
      var rest := entries[1..];
      forall i | 0 <= i < |rest| ensures rest[i].key != k {
        assert rest[i] == entries[i + 1];
      }
      ApplyEntriesUntouched(config.Set(entries[0].key, StoredConfig(entries[0].value).value), rest, k);
    }
  }

  /** One tool of `applyDefaultConfiguration`: disabled, with its server,
      scene types and priority. */
  function DefaultTool(serverUrl: string, sceneTypes: seq<Json>, priority: Json): Json {
    JObj([Field("enabled", JBool(false)), Field("serverUrl", JStr(serverUrl)),
          Field("sceneTypes", JArr(sceneTypes)), Field("priority", priority)])
  }

  /** The names the default configuration defines, in its order. */
  function DefaultToolNames(): seq<string> {
    ["weather-api", "web-search", "conversation-memory", "rag-search"]
  }

  /** The configuration of the `i`-th default tool. */
  function DefaultToolConfig(i: nat): Json
    requires i < 4
  {
    if i == 0 then DefaultTool("http://localhost:3001/mcp", [JStr("weather")], Int(1))
    else if i == 1 then DefaultTool("http://localhost:3002/mcp", [JStr("search")], JNum(9, 1))
    else if i == 2 then DefaultTool("http://localhost:3003/mcp", [JStr("memory")], Int(1))
    else DefaultTool("http://localhost:3004/mcp", [JStr("search"), JStr("memory")], JNum(8, 1))
  }

  /** The `defaultTools` object of `applyDefaultConfiguration`. */
  function DefaultTools(): Json {
    JObj(seq(4, i requires 0 <= i < 4 => Field(DefaultToolNames()[i], DefaultToolConfig(i))))
  }

  /** What a default tool's stored configuration reads: disabled, its own
      server URL and priority, and the defaults for the rest. */
  lemma DefaultToolStored(serverUrl: string, sceneTypes: seq<Json>, priority: Json)
    requires Truthy(Some(priority))
    ensures StoredConfig(DefaultTool(serverUrl, sceneTypes, priority)).Ok?
    ensures var c := StoredConfig(DefaultTool(serverUrl, sceneTypes, priority)).value;
      && FieldValue(c, "enabled") == Value(JBool(false))
      && FieldValue(c, "serverUrl") == Value(JStr(serverUrl))
      && FieldValue(c, "priority") == Value(priority)
      && FieldValue(c, "cacheTimeout") == Value(Int(300000))
      && FieldValue(c, "maxRetries") == Value(Int(2))
  {
    var t := DefaultTool(serverUrl, sceneTypes, priority);
    var fs := t.fields;
    assert DistinctKeys(fs);
    StoredConfigValue(t, "enabled");
    FieldValueIndex(fs, 0);
    StoredConfigValue(t, "serverUrl");
    FieldValueIndex(fs, 1);
    StoredConfigValue(t, "priority");
    FieldValueIndex(fs, 3);
    StoredConfigValue(t, "cacheTimeout");
    FieldValueDefined(fs, "cacheTimeout");
    StoredConfigValue(t, "maxRetries");
    FieldValueDefined(fs, "maxRetries");
  }

  /** `applyDefaultConfiguration()`. */
  function DefaultConfigured(config: OMap<seq<Field>>): (r: OMap<seq<Field>>)
    requires config.Valid()
    ensures r.Valid()
  {
    Configured(config, JObj([Field("tools", DefaultTools())])).0
  }

  /** The four default names are distinct. */
  lemma DefaultNamesDistinct()
    ensures forall i, j :: 0 <= i < j < 4 ==> DefaultToolNames()[i] != DefaultToolNames()[j]
  {
    var n := DefaultToolNames();
    assert n[0][2] != n[1][2] && |n[0]| != |n[2]| && n[0][0] != n[3][0];
    assert |n[1]| != |n[2]| && n[1][0] != n[3][0] && |n[2]| != |n[3]|;
  }

  /** The default configuration stores its `i`-th tool as `DefaultTool`
      describes it. */
  lemma DefaultEntry(config: OMap<seq<Field>>, i: nat, serverUrl: string, sceneTypes: seq<Json>, priority: Json)
    requires config.Valid() && i < 4
    requires DefaultToolConfig(i) == DefaultTool(serverUrl, sceneTypes, priority)
    requires Truthy(Some(priority))
    ensures var name := DefaultToolNames()[i];
      && DefaultConfigured(config).Has(name)
      && var c := DefaultConfigured(config).Get(name);
      && FieldValue(c, "enabled") == Value(JBool(false))
      && FieldValue(c, "serverUrl") == Value(JStr(serverUrl))
      && FieldValue(c, "priority") == Value(priority)
      && FieldValue(c, "cacheTimeout") == Value(Int(300000))
  {
    var entries := DefaultTools().fields;
    DefaultEntries(config);
    DefaultToolsShape();
    DefaultNamesDistinct();
    var e := entries[i];
    assert e.value == DefaultTool(serverUrl, sceneTypes, priority);
    forall j | i < j < |entries| ensures entries[j].key != e.key {
      assert entries[j].key == DefaultToolNames()[j] && e.key == DefaultToolNames()[i];
    }
    ApplyEntriesValue(config, entries, i);
    DefaultToolStored(serverUrl, sceneTypes, priority);
    assert DefaultConfigured(config).Get(e.key) == StoredConfig(e.value).value;
  }

  /** The default tools object lists the four names with their configurations. */
  lemma DefaultToolsShape()
    ensures |DefaultTools().fields| == 4
    ensures forall i :: 0 <= i < 4 ==> DefaultTools().fields[i].key == DefaultToolNames()[i]
    ensures forall i :: 0 <= i < 4 ==> DefaultTools().fields[i].value == DefaultToolConfig(i)
  {
  }

  /** Applying the default tools goes through all four entries. */
  lemma DefaultEntries(config: OMap<seq<Field>>)
    requires config.Valid()
    ensures var entries := DefaultTools().fields;
      && |entries| == 4
      && (forall i :: 0 <= i < 4 ==> entries[i].key == DefaultToolNames()[i])
      && Configured(config, JObj([Field("tools", DefaultTools())])) == ApplyEntries(config, entries)
      && ApplyEntries(config, entries).1.None?
  {
    var entries := DefaultTools().fields;
    DefaultToolsShape();
    assert ToolEntries(JObj([Field("tools", DefaultTools())])) == Ok(entries) by {
      assert Prop(JObj([Field("tools", DefaultTools())]), "tools") == Value(DefaultTools());
    }
    forall i | 0 <= i < 4 ensures !entries[i].value.JNull? {
      assert entries[i].value == DefaultToolConfig(i);
    }
    ApplyEntriesThrows(config, entries);
  }

  /** Applying entries named `names` without throwing adds exactly those
      names and leaves every other tool's configuration as it was. */
  lemma EntriesKeys(config: OMap<seq<Field>>, entries: seq<Field>, names: seq<string>)
    requires config.Valid()
    requires |entries| == |names| && forall i :: 0 <= i < |entries| ==> entries[i].key == names[i]
    requires ApplyEntries(config, entries).1.None?
    ensures var r := ApplyEntries(config, entries).0;
      && (forall k :: r.Has(k) <==> config.Has(k) || k in names)
      && (forall k :: k !in names && config.Has(k) ==> r.Get(k) == config.Get(k))
  {
    var r := ApplyEntries(config, entries).0;
    forall k ensures r.Has(k) <==> config.Has(k) || k in names {
      ApplyEntriesKeys(config, entries, k);
      if k in names {
        var i :| 0 <= i < |names| && names[i] == k;
        assert entries[i].key == k;
      }
    }
    forall k | k !in names && config.Has(k) ensures r.Get(k) == config.Get(k) {
      forall i | 0 <= i < |entries| ensures entries[i].key != k {
        assert entries[i].key == names[i];
      }
      ApplyEntriesUntouched(config, entries, k);
    }
  }

  /** The default configuration adds exactly the four default tools, every
      one disabled, and throws nothing; other tools keep their configuration. */
  lemma DefaultConfiguration(config: OMap<seq<Field>>)
    requires config.Valid()
    ensures Configured(config, JObj([Field("tools", DefaultTools())])).1.None?
    ensures var r := DefaultConfigured(config);
      && (forall k :: r.Has(k) <==> config.Has(k) || k in DefaultToolNames())
      && (forall k :: k !in DefaultToolNames() && config.Has(k) ==> r.Get(k) == config.Get(k))
      && (forall i :: 0 <= i < 4 ==> FieldValue(r.Get(DefaultToolNames()[i]), "enabled") == Value(JBool(false)))
  {
    DefaultEntries(config);
    EntriesKeys(config, DefaultTools().fields, DefaultToolNames());
    forall i | 0 <= i < 4 ensures FieldValue(DefaultConfigured(config).Get(DefaultToolNames()[i]), "enabled") == Value(JBool(false)) {
      DefaultEnabled(config, i);
    }
  }

  lemma DefaultEnabled(config: OMap<seq<Field>>, i: nat)
    requires config.Valid() && i < 4
    ensures DefaultConfigured(config).Has(DefaultToolNames()[i])
    ensures FieldValue(DefaultConfigured(config).Get(DefaultToolNames()[i]), "enabled") == Value(JBool(false))
  {
    if i == 0 {
      DefaultEntry(config, 0, "http://localhost:3001/mcp", [JStr("weather")], Int(1));
    } else if i == 1 {
      DefaultEntry(config, 1, "http://localhost:3002/mcp", [JStr("search")], JNum(9, 1));
    } else if i == 2 {
      DefaultEntry(config, 2, "http://localhost:3003/mcp", [JStr("memory")], Int(1));
    } else {
      DefaultEntry(config, 3, "http://localhost:3004/mcp", [JStr("search"), JStr("memory")], JNum(8, 1));
    }
  }

  /** The default priorities: web search 0.9 and retrieval search 0.8, below
      the weather and memory tools' 1; results are cached for five minutes. */
  lemma DefaultPriorities(config: OMap<seq<Field>>)
    requires config.Valid()
    ensures var r := DefaultConfigured(config);
      && r.Has("weather-api") && r.Has("web-search") && r.Has("conversation-memory") && r.Has("rag-search")
      && FieldValue(r.Get("weather-api"), "priority") == Value(Int(1))
      && FieldValue(r.Get("web-search"), "priority") == Value(JNum(9, 1))
      && FieldValue(r.Get("conversation-memory"), "priority") == Value(Int(1))
      && FieldValue(r.Get("rag-search"), "priority") == Value(JNum(8, 1))
      && FieldValue(r.Get("weather-api"), "cacheTimeout") == Value(Int(300000))
  {
    DefaultEntry(config, 0, "http://localhost:3001/mcp", [JStr("weather")], Int(1));
    DefaultEntry(config, 1, "http://localhost:3002/mcp", [JStr("search")], JNum(9, 1));
    DefaultEntry(config, 2, "http://localhost:3003/mcp", [JStr("memory")], Int(1));
    DefaultEntry(config, 3, "http://localhost:3004/mcp", [JStr("search"), JStr("memory")], JNum(8, 1));
  }

  /** `loadConfiguration()`: a fetched configuration is applied; when it or
      its application throws, the defaults are applied on top of what was
      already set; a response that is not ok changes nothing. */
  function Loaded(config: OMap<seq<Field>>, fetch: ConfigFetch): (r: OMap<seq<Field>>)
    requires config.Valid()
    ensures r.Valid()
  {
    match fetch
    case FetchRejected => DefaultConfigured(config)
    case Fetched(ok, body) =>
      if !ok then config
      else if body.Err? then DefaultConfigured(config)
      else
        var (c, err) := Configured(config, body.value);
        if err.Some? then DefaultConfigured(c) else c
  }

  // ---------------------------------------------------------------------------
  // Built-in tools

  /** What a built-in handler resolves to. */
  function RunHandler(h: Handler, host: Host): Json {
    match h
    case DatetimeHandler =>
      JObj([Field("currentTime", JStr(host.isoTime)), Field("timestamp", Int(host.now)),
            Field("timezone", JStr(host.timeZone))])
    case BrowserInfoHandler =>
      JObj([Field("userAgent", JStr(host.userAgent)), Field("language", JStr(host.language)),
            Field("platform", JStr(host.platform)), Field("cookieEnabled", JBool(host.cookieEnabled))])
  }

  /** The two tools `registerBuiltinTools` registers. */
  function DatetimeTool(): ToolDefinition {
    ToolDefinition("datetime-service", "获取当前日期时间", JObj([]), DatetimeHandler)
  }

  function BrowserInfoTool(): ToolDefinition {
    ToolDefinition("browser-info", "获取浏览器信息", JObj([]), BrowserInfoHandler)
  }

  /** The configuration every built-in tool is registered with. */
  function BuiltinConfig(): seq<Field> {
    [Field("enabled", JBool(true)), Field("priority", Int(1))]
  }

  /** `toolInfo.tools.find(t => t.name === fn)`. */
  function FindFunction(fns: seq<ToolDefinition>, fn: string): (r: Option<ToolDefinition>)
    ensures r.Some? ==> r.value in fns && r.value.name == fn
    ensures r.None? ==> forall d :: d in fns ==> d.name != fn
  {
    if fns == [] then None
    else if fns[0].name == fn then Some(fns[0])
    else FindFunction(fns[1..], fn)
  }

  // ---------------------------------------------------------------------------
  // Calling a tool

  /** The cache key of a call: tool, function and serialised arguments. */
  function CacheKey(toolName: string, fn: string, args: Json): string {
    toolName + ":" + fn + ":" + Stringify(args)
  }

  /** `this.config.get(toolName)?.cacheTimeout || 300000` as a number (`None`
      is NaN). */
  function CacheTtl(config: OMap<seq<Field>>, toolName: string): (r: Option<real>) {
    var x := if config.Has(toolName) then FieldValue(config.Get(toolName), "cacheTimeout") else Undefined;
    if Truthy(x.AsOption()) then ToNumber(x) else Some(300000.0)
  }

  /** A tool without configuration (every built-in one), or whose
      `cacheTimeout` is missing or 0, keeps results for five minutes. */
  lemma CacheTtlDefault(config: OMap<seq<Field>>, toolName: string)
    ensures !config.Has(toolName) ==> CacheTtl(config, toolName) == Some(300000.0)
    ensures config.Has(toolName) && FieldValue(config.Get(toolName), "cacheTimeout") in {Undefined, Value(Int(0))}
      ==> CacheTtl(config, toolName) == Some(300000.0)
    ensures config.Has(toolName) && FieldValue(config.Get(toolName), "cacheTimeout") == Value(Int(60000))
      ==> CacheTtl(config, toolName) == Some(60000.0)
  {
  }

  /** The cached result a call may use: present and younger than the TTL. */
  function CachedResult(cache: OMap<CacheEntry>, config: OMap<seq<Field>>, toolName: string, key: string, now: int): (r: Option<Json>)
    ensures r.Some? ==> cache.Has(key) && r.value == cache.Get(key).result
  {
    if cache.Has(key) then
      var ttl := CacheTtl(config, toolName);
      var e := cache.Get(key);
      if ttl.Some? && ((now - e.timestamp) as real) < ttl.value then Some(e.result) else None
    else None
  }

  /** The `try` block of `callTool`: look the tool up, refuse an unknown or
      disabled one, then run the built-in function or ask the server. */
  function Dispatch(tools: OMap<ToolInfo>, toolName: string, fn: string, args: Json, env: Env): (r: Result<Json, Failure>)
    ensures !tools.Has(toolName) ==> r == Err(ToolNotFound(toolName))
    ensures tools.Has(toolName) && !Truthy(FieldValue(tools.Get(toolName).config, "enabled").AsOption())
      ==> r == Err(ToolDisabled(toolName))
  {
    if !tools.Has(toolName) then Err(ToolNotFound(toolName))
    else
      var info := tools.Get(toolName);
      if !Truthy(FieldValue(info.config, "enabled").AsOption()) then Err(ToolDisabled(toolName))
      else match info
        case Builtin(_, fns) =>
          var d := FindFunction(fns, fn);
          if d.None? then Err(FunctionNotFound(fn, toolName)) else Ok(RunHandler(d.value.handler, env.host))
        case Remote(_, conn, _, _) =>
          if conn.None? then Err(NoConnection(toolName))
          else RequestOutcome(conn.value.RequestFor("/tools/call", "POST", Some(CallBody(fn, args))), env.net, conn.value.maxRetries).0
  }

  /** An enabled built-in tool answers with its handler exactly when it has
      the function asked for. */
  lemma BuiltinDispatch(tools: OMap<ToolInfo>, toolName: string, fn: string, args: Json, env: Env)
    requires tools.Has(toolName) && tools.Get(toolName).Builtin?
    requires Truthy(FieldValue(tools.Get(toolName).config, "enabled").AsOption())
    ensures var r := Dispatch(tools, toolName, fn, args, env);
      && (r.Ok? <==> exists d :: d in tools.Get(toolName).functions && d.name == fn)
      && (r.Err? ==> r.error == FunctionNotFound(fn, toolName))
      && (r.Ok? ==> exists d :: d in tools.Get(toolName).functions && d.name == fn && r.value == RunHandler(d.handler, env.host))
  {
    var d := FindFunction(tools.Get(toolName).functions, fn);
    if d.Some? {
      assert d.value in tools.Get(toolName).functions;
    }
  }

  /** What a call yields and whether it came from the cache. */
  function Outcome(cache: OMap<CacheEntry>, config: OMap<seq<Field>>, tools: OMap<ToolInfo>,
                   toolName: string, fn: string, args: Json, env: Env): (Result<Json, Failure>, bool)
  {
    var hit := CachedResult(cache, config, toolName, CacheKey(toolName, fn, args), env.host.now);
    if hit.Some? then (Ok(hit.value), true) else (Dispatch(tools, toolName, fn, args, env), false)
  }

  /** The cache after a call: a fresh success is stored with the time. */
  function AfterCall(cache: OMap<CacheEntry>, key: string, outcome: (Result<Json, Failure>, bool), now: int): (r: OMap<CacheEntry>)
    requires cache.Valid()
    ensures r.Valid()
  {
    if !outcome.1 && outcome.0.Ok? then cache.Set(key, CacheEntry(outcome.0.value, now)) else cache
  }

  /** A call repeated within the TTL of a successful call that reached the
      tool is answered from the cache with the same result, whatever the tool table says by then. */
  lemma RepeatHitsCache(cache: OMap<CacheEntry>, config: OMap<seq<Field>>, tools: OMap<ToolInfo>, tools': OMap<ToolInfo>,
                        toolName: string, fn: string, args: Json, env: Env, env': Env)
    requires cache.Valid()
    requires Outcome(cache, config, tools, toolName, fn, args, env).0.Ok?
    requires !Outcome(cache, config, tools, toolName, fn, args, env).1
    requires var ttl := CacheTtl(config, toolName);
      ttl.Some? && env.host.now <= env'.host.now && ((env'.host.now - env.host.now) as real) < ttl.value
    ensures var first := Outcome(cache, config, tools, toolName, fn, args, env);
      var c := AfterCall(cache, CacheKey(toolName, fn, args), first, env.host.now);
      Outcome(c, config, tools', toolName, fn, args, env') == (first.0, true)
  {
    var key := CacheKey(toolName, fn, args);
    var first := Outcome(cache, config, tools, toolName, fn, args, env);
    var c := AfterCall(cache, key, first, env.host.now);
    assert c.Get(key) == CacheEntry(first.0.value, env.host.now);
  }

  /** What a `callTools` promise settles to for a call that yielded `r`;
      reading `message` of a thrown `undefined` rejects it. */
  function Settle(call: ToolCall, r: Result<Json, Failure>, now: int): (s: Settled)
    ensures s.Rejected? <==> r == Err(ThrownUndefined)
    ensures s.Fulfilled? ==> (s.report.toolName == call.toolName && s.report.fn == call.fn
      && s.report.success == r.Ok? && s.report.executionTime == now - call.startTime)
    ensures s.Fulfilled? && r.Ok? ==> s.report.result == Some(r.value)
    ensures s.Fulfilled? && r.Err? ==> s.report.error == Message(r.error)
  {
    if r.Ok? then Fulfilled(CallReport(call.toolName, call.fn, true, Some(r.value), None, now - call.startTime))
    else
      var m := Message(r.error);
      if m.None? then Rejected(TypeError("Cannot read properties of undefined (reading 'message')"))
      else Fulfilled(CallReport(call.toolName, call.fn, false, None, m, now - call.startTime))
  }

  /** The outcomes of a batch: every call sees the cache as it was when the
      batch started, since all of them check it before any one completes. */
  function BatchOutcomes(cache: OMap<CacheEntry>, config: OMap<seq<Field>>, tools: OMap<ToolInfo>,
                         calls: seq<ToolCall>, env: Env): (r: seq<(Result<Json, Failure>, bool)>)
    ensures |r| == |calls|
  {
    seq(|calls|, i requires 0 <= i < |calls| => Outcome(cache, config, tools, calls[i].toolName, calls[i].fn, calls[i].args, env))
  }

  /** The cache after storing the outcomes of `calls` in order. */
  function StoreAll(cache: OMap<CacheEntry>, calls: seq<ToolCall>, outs: seq<(Result<Json, Failure>, bool)>, now: int): (r: OMap<CacheEntry>)
    requires cache.Valid() && |outs| == |calls|
    ensures r.Valid()
    decreases |calls|
  {
    if calls == [] then cache
    else
      var n := |calls| - 1;
      AfterCall(StoreAll(cache, calls[..n], outs[..n], now), CacheKey(calls[n].toolName, calls[n].fn, calls[n].args), outs[n], now)
  }

  /** Storing one more outcome of the batch. */
  lemma StoreAllStep(cache: OMap<CacheEntry>, calls: seq<ToolCall>, outs: seq<(Result<Json, Failure>, bool)>, i: nat, now: int)
    requires cache.Valid() && |outs| == |calls| && i < |calls|
    ensures StoreAll(cache, calls[..i + 1], outs[..i + 1], now)
      == AfterCall(StoreAll(cache, calls[..i], outs[..i], now), CacheKey(calls[i].toolName, calls[i].fn, calls[i].args), outs[i], now)
  {
    assert calls[..i + 1][..i] == calls[..i] && outs[..i + 1][..i] == outs[..i];
  }

  /** Two identical calls in one batch get the same outcome: neither sees the
      other's cache entry. */
  lemma BatchIdenticalCalls(cache: OMap<CacheEntry>, config: OMap<seq<Field>>, tools: OMap<ToolInfo>,
                            calls: seq<ToolCall>, env: Env, i: nat, j: nat)
    requires i < |calls| && j < |calls|
    requires calls[i].toolName == calls[j].toolName && calls[i].fn == calls[j].fn && calls[i].args == calls[j].args
    ensures BatchOutcomes(cache, config, tools, calls, env)[i] == BatchOutcomes(cache, config, tools, calls, env)[j]
  {
  }

  // ---------------------------------------------------------------------------
  // Listing

  /** The properties of `t` among `keys` that are defined, in that order. */
  function PresentFields(t: Json, keys: seq<string>): seq<Field> {
    if keys == [] then []
    else
      var x := Prop(t, keys[0]);
      (if x.Value? then [Field(keys[0], x.v)] else []) + PresentFields(t, keys[1..])
  }

  /** `t => ({ name: t.name, description: t.description, inputSchema: t.inputSchema })`;
      an undefined property is left out, a null descriptor throws. */
  function Describe(t: Json): Result<Json, Failure> {
    if t.JNull? then Err(TypeError("Cannot read properties of null (reading 'name')"))
    else Ok(JObj(PresentFields(t, ["name", "description", "inputSchema"])))
  }

  /** `items.map(Describe)`, throwing at the first null descriptor. */
  function DescribeAll(items: seq<Json>): (r: Result<seq<Json>, Failure>)
    ensures r.Ok? ==> |r.value| == |items|
  {
    if items == [] then Ok([])
    else match Describe(items[0])
      case Err(e) => Err(e)
      case Ok(d) =>
        match DescribeAll(items[1..])
        case Err(e) => Err(e)
        case Ok(ds) => Ok([d] + ds)
  }

  /** The `tools` list of a summary: a built-in tool's definitions, or the
      remote listing when it is an array (`map` is not a function otherwise). */
  function ToolList(info: ToolInfo): Result<seq<Json>, Failure> {
    match info
    case Builtin(_, fns) =>
      Ok(seq(|fns|, i requires 0 <= i < |fns| =>
        JObj([Field("name", JStr(fns[i].name)), Field("description", JStr(fns[i].description)),
              Field("inputSchema", fns[i].inputSchema)])))
    case Remote(_, _, tools, _) =>
      if tools.JArr? then DescribeAll(tools.items)
      else Err(TypeError("toolInfo.tools.map is not a function"))
  }

  /** Whether the listing would keep a tool, `None` when `includes` throws:
      it must be enabled, and when a scene type is asked for and the tool
      has scene types, they must include it. */
  function Keeps(info: ToolInfo, sceneType: Option<string>): Option<bool> {
    var sts := FieldValue(info.config, "sceneTypes");
    if !Truthy(FieldValue(info.config, "enabled").AsOption()) then Some(false)
    else if TruthyString(sceneType) && Truthy(sts.AsOption()) then Includes(sts, sceneType.value)
    else Some(true)
  }

  /** One iteration of `getAvailableTools`: the summary pushed, if any. */
  function Summary(name: string, info: ToolInfo, sceneType: Option<string>): (r: Result<Option<ToolSummary>, Failure>)
    ensures r.Ok? && r.value.Some? ==> r.value.value.name == name && Keeps(info, sceneType) == Some(true)
    ensures r.Ok? && r.value.None? ==> Keeps(info, sceneType) == Some(false)
    ensures Keeps(info, sceneType).None? ==> r.Err?
  {
    var keep := Keeps(info, sceneType);
    if keep.None? then Err(TypeError("includes is not a function"))
    else if !keep.value then Ok(None)
    else match ToolList(info)
      case Err(e) => Err(e)
      case Ok(ts) =>
        Ok(Some(ToolSummary(name, FieldValue(info.config, "priority").AsOption(),
                            Or(FieldValue(info.config, "sceneTypes"), JArr([])), ts)))
  }

  /** The loop of `getAvailableTools` over `keys`, before sorting. */
  function Listed(tools: OMap<ToolInfo>, keys: seq<string>, sceneType: Option<string>): Result<seq<ToolSummary>, Failure>
    requires forall k :: k in keys ==> tools.Has(k)
    decreases |keys|
  {
    if keys == [] then Ok([])
    else
      var n := |keys| - 1;
      match Listed(tools, keys[..n], sceneType)
      case Err(e) => Err(e)
      case Ok(acc) =>
        match Summary(keys[n], tools.Get(keys[n]), sceneType)
        case Err(e) => Err(e)
        case Ok(s) => Ok(acc + (if s.Some? then [s.value] else []))
  }

  /** One more iteration of the listing loop. */
  lemma ListedStep(tools: OMap<ToolInfo>, keys: seq<string>, i: nat, sceneType: Option<string>, acc: seq<ToolSummary>)
    requires i < |keys| && forall k :: k in keys ==> tools.Has(k)
    requires Listed(tools, keys[..i], sceneType) == Ok(acc)
    ensures var s := Summary(keys[i], tools.Get(keys[i]), sceneType);
      Listed(tools, keys[..i + 1], sceneType) ==
        if s.Err? then Err(s.error) else Ok(acc + (if s.value.Some? then [s.value.value] else []))
  {
    assert keys[..i + 1][..i] == keys[..i];
    assert keys[..i + 1][i] == keys[i];
  }

  /** Once a prefix of the loop throws, the whole loop throws that error. */
  lemma {:induction false} ListedPrefixErr(tools: OMap<ToolInfo>, keys: seq<string>, i: nat, sceneType: Option<string>)
    requires i <= |keys| && forall k :: k in keys ==> tools.Has(k)
    requires Listed(tools, keys[..i], sceneType).Err?
    ensures Listed(tools, keys, sceneType) == Listed(tools, keys[..i], sceneType)
    decreases |keys| - i
  {
    if i < |keys| {
      var n := |keys| - 1;
      assert forall k :: k in keys[..n] ==> k in keys;
      assert keys[..n][..i] == keys[..i];
      ListedPrefixErr(tools, keys[..n], i, sceneType);
    } else {
      assert keys[..i] == keys;
    }
  }

  /** The listing holds, in iteration order, a summary of exactly the tools
      it keeps. */
  lemma {:induction false} ListedMembers(tools: OMap<ToolInfo>, keys: seq<string>, sceneType: Option<string>)
    requires forall k :: k in keys ==> tools.Has(k)
    requires Listed(tools, keys, sceneType).Ok?
    ensures forall s :: s in Listed(tools, keys, sceneType).value ==>
      s.name in keys && Keeps(tools.Get(s.name), sceneType) == Some(true)
    ensures forall k :: k in keys && Keeps(tools.Get(k), sceneType) == Some(true) ==>
      exists s :: s in Listed(tools, keys, sceneType).value && s.name == k
    decreases |keys|
  {
    if keys != [] {
      var n := |keys| - 1;
      var init := keys[..n];
      assert forall k :: k in init ==> k in keys;
      ListedMembers(tools, init, sceneType);
      var acc := Listed(tools, init, sceneType).value;
      var s := Summary(keys[n], tools.Get(keys[n]), sceneType).value;
      assert Listed(tools, keys, sceneType).value == acc + (if s.Some? then [s.value] else []);
      forall k | k in keys && Keeps(tools.Get(k), sceneType) == Some(true)
        ensures exists s :: s in Listed(tools, keys, sceneType).value && s.name == k
      {
        if k !in init {
          assert keys == init + [keys[n]];
          assert k == keys[n];
        } else {
          var t :| t in acc && t.name == k;
          assert t in Listed(tools, keys, sceneType).value;
        }
      }
    }
  }

  /** The sort key of a summary: its numeric priority (0 otherwise). */
  function PriorityKey(s: ToolSummary): real {
    if s.priority.Some? && s.priority.value.JNum? then NumValue(s.priority.value) else 0.0
  }

  /** `getAvailableTools(sceneType)`: the kept tools, highest priority first. */
  function AvailableTools(tools: OMap<ToolInfo>, sceneType: Option<string>): Result<seq<ToolSummary>, Failure>
    requires tools.Valid()
  {
    match Listed(tools, tools.keys, sceneType)
    case Err(e) => Err(e)
    case Ok(xs) => Ok(SortDesc(xs, PriorityKey))
  }

  /** The listing is ordered by non-increasing priority and names exactly the
      registered tools that are enabled and, when a scene type is given and
      they declare scene types, declare that one. */
  lemma AvailableToolsSpec(tools: OMap<ToolInfo>, sceneType: Option<string>)
    requires tools.Valid()
    requires AvailableTools(tools, sceneType).Ok?
    ensures var xs := AvailableTools(tools, sceneType).value;
      && SortedDesc(xs, PriorityKey)
      && (forall s :: s in xs ==> tools.Has(s.name) && Keeps(tools.Get(s.name), sceneType) == Some(true))
      && (forall k :: tools.Has(k) && Keeps(tools.Get(k), sceneType) == Some(true) ==> exists s :: s in xs && s.name == k)
  {
    var ys := Listed(tools, tools.keys, sceneType).value;
    ListedMembers(tools, tools.keys, sceneType);
    SortDescProps(ys, PriorityKey);
    PermutationMembers(ys, SortDesc(ys, PriorityKey));
  }

  /** A built-in tool is listed for every scene type: its configuration has
      no scene types to filter by. */
  lemma BuiltinAlwaysKept(fns: seq<ToolDefinition>, sceneType: Option<string>)
    ensures Keeps(Builtin(BuiltinConfig(), fns), sceneType) == Some(true)
  {
  }

  // ---------------------------------------------------------------------------
  // Health

  /** One iteration of `checkHealth`; a thrown `undefined` makes reading its
      `message` in the `catch` throw out of `checkHealth`. */
  function HealthOf(info: ToolInfo, net: Network): (r: Result<Health, Failure>)
    ensures info.Builtin? ==> r == Ok(Healthy(true, None))
    ensures info.Remote? && info.connection.None? ==> r == Ok(Disconnected)
  {
    match info
    case Builtin(_, _) => Ok(Healthy(true, None))
    case Remote(_, conn, _, last) =>
      if conn.None? then Ok(Disconnected)
      else
        var ping := RequestOutcome(conn.value.RequestFor("/ping", "GET", None), net, conn.value.maxRetries).0;
        if ping.Ok? then Ok(Healthy(false, Some(last)))
        else
          var m := Message(ping.error);
          if m.None? then Err(TypeError("Cannot read properties of undefined (reading 'message')"))
          else Ok(Unhealthy(m.value, false))
  }

  /** `checkHealth()` over the `[name, info]` entries. */
  function HealthReport(entries: seq<(string, ToolInfo)>, net: Network): (r: Result<seq<(string, Health)>, Failure>)
    ensures r.Ok? ==> |r.value| == |entries| && forall i :: 0 <= i < |entries| ==>
      r.value[i].0 == entries[i].0 && Ok(r.value[i].1) == HealthOf(entries[i].1, net)
    decreases |entries|
  {
    if entries == [] then Ok([])
    else
      var n := |entries| - 1;
      match HealthReport(entries[..n], net)
      case Err(e) => Err(e)
      case Ok(acc) =>
        match HealthOf(entries[n].1, net)
        case Err(e) => Err(e)
        case Ok(h) => Ok(acc + [(entries[n].0, h)])
  }

  /** One more iteration of `checkHealth` after a prefix that did not throw. */
  lemma HealthReportStep(entries: seq<(string, ToolInfo)>, i: nat, net: Network, acc: seq<(string, Health)>, h: Result<Health, Failure>)
    requires i < |entries| && HealthReport(entries[..i], net) == Ok(acc)
    requires h == HealthOf(entries[i].1, net)
    ensures HealthReport(entries[..i + 1], net) == if h.Err? then Err(h.error) else Ok(acc + [(entries[i].0, h.value)])
  {
    assert entries[..i + 1][..i] == entries[..i];
  }

  /** Once a prefix of the loop throws, `checkHealth` throws that error. */
  lemma {:induction false} HealthPrefixErr(entries: seq<(string, ToolInfo)>, i: nat, net: Network)
    requires i <= |entries| && HealthReport(entries[..i], net).Err?
    ensures HealthReport(entries, net) == HealthReport(entries[..i], net)
    decreases |entries| - i
  {
    if i < |entries| {
      var n := |entries| - 1;
      assert entries[..n][..i] == entries[..i];
      HealthPrefixErr(entries[..n], i, net);
    } else {
      assert entries[..i] == entries;
    }
  }

  /** A remote tool whose server answers the ping is healthy; one whose ping
      fails with a message reports that message. */
  lemma RemoteHealth(conf: seq<Field>, conn: McpConnection, tools: Json, last: int, net: Network)
    ensures var ping := RequestOutcome(conn.RequestFor("/ping", "GET", None), net, conn.maxRetries).0;
      && (ping.Ok? ==> HealthOf(Remote(conf, Some(conn), tools, last), net) == Ok(Healthy(false, Some(last))))
      && (ping.Err? && Message(ping.error).Some? ==>
            HealthOf(Remote(conf, Some(conn), tools, last), net) == Ok(Unhealthy(Message(ping.error).value, false)))
      && (HealthOf(Remote(conf, Some(conn), tools, last), net).Err? <==> ping == Err(ThrownUndefined))
  {
    var ping := RequestOutcome(conn.RequestFor("/ping", "GET", None), net, conn.maxRetries).0;
    var h := HealthOf(Remote(conf, Some(conn), tools, last), net);
    if ping.Err? {
      assert h.Err? <==> Message(ping.error).None?;
      assert Message(ping.error).None? <==> ping.error == ThrownUndefined;
    }
  }

  // ---------------------------------------------------------------------------
  // Connecting

  /** A configured tool the manager connects to: enabled, with a server URL. */
  predicate Connectable(conf: seq<Field>) {
    Truthy(FieldValue(conf, "enabled").AsOption()) && Truthy(FieldValue(conf, "serverUrl").AsOption())
  }

  /** `new McpConnection(conf.serverUrl, { timeout: conf.timeout,
      maxRetries: conf.maxRetries })`: the options of the connection
      `connectToService` makes for the stored configuration `conf`. */
  predicate ConnectionFor(conn: McpConnection, conf: seq<Field>) {
    && conn.serverUrl == DisplayLookup(FieldValue(conf, "serverUrl"))
    && conn.timeout == Or(FieldValue(conf, "timeout"), Int(5000))
    && conn.maxRetries == Or(FieldValue(conf, "maxRetries"), Int(2))
  }

  /** What `connectToService` gets from a fresh connection for the stored
      configuration `conf`: the `/tools/list` answer after a successful
      handshake, or the first error. */
  function ConnectResult(conf: seq<Field>, net: Network): Result<Json, Failure> {
    var url := DisplayLookup(FieldValue(conf, "serverUrl"));
    var timeout := Or(FieldValue(conf, "timeout"), Int(5000));
    var retries := Or(FieldValue(conf, "maxRetries"), Int(2));
    var init := RequestOutcome(RequestTo(url, timeout, "/initialize", "POST", Some(InitializeBody())), net, retries).0;
    if init.Err? then Err(init.error)
    else RequestOutcome(RequestTo(url, timeout, "/tools/list", "GET", None), net, retries).0
  }

  /** `connectToServices` connects `k` and the connection succeeds: `k` is
      configured, enabled, has a server URL, and its handshake and listing
      succeed. */
  predicate Connects(config: OMap<seq<Field>>, k: string, net: Network) {
    config.Has(k) && Connectable(config.Get(k)) && ConnectResult(config.Get(k), net).Ok?
  }

  /** `k` is registered as the remote tool of configuration `conf`, whose
      connection succeeded, with a connection made with its options and the
      listing it answered. */
  predicate Registered(k: string, conf: seq<Field>, tools: OMap<ToolInfo>, conns: OMap<McpConnection>, net: Network, now: int) {
    && ConnectResult(conf, net).Ok?
    && tools.Has(k) && conns.Has(k)
    && ConnectionFor(conns.Get(k), conf)
    && tools.Get(k) == Remote(conf, Some(conns.Get(k)), ConnectResult(conf, net).value, now)
  }

  /** The entry of `k` in the tools and the connections is the same in the
      two states. */
  predicate SameEntry(k: string, tools0: OMap<ToolInfo>, tools: OMap<ToolInfo>, conns0: OMap<McpConnection>, conns: OMap<McpConnection>) {
    && (tools.Has(k) <==> tools0.Has(k)) && (tools.Has(k) ==> tools.Get(k) == tools0.Get(k))
    && (conns.Has(k) <==> conns0.Has(k)) && (conns.Has(k) ==> conns.Get(k) == conns0.Get(k))
  }

  // ---------------------------------------------------------------------------
  // The manager

  class McpToolManager {
    var tools: OMap<ToolInfo>
    var connections: OMap<McpConnection>
    var config: OMap<seq<Field>>
    var cache: OMap<CacheEntry>
    var isInitialized: bool

    ghost predicate Valid()
      reads this
    {
      tools.Valid() && connections.Valid() && config.Valid() && cache.Valid()
    }

    constructor ()
      ensures Valid() && !isInitialized
      ensures tools == Empty() && connections == Empty() && config == Empty() && cache == Empty()
    {
      tools := Empty();
      connections := Empty();
      config := Empty();
      cache := Empty();
      isInitialized := false;
    }

    /** `applyConfiguration(cfg)`; returns what it throws, if anything. */
    method ApplyConfiguration(cfg: Json) returns (thrown: Option<Failure>)
      requires Valid()
      modifies this`config
      ensures Valid()
      ensures (config, thrown) == Configured(old(config), cfg)
    {
      var entries := ToolEntries(cfg);
      if entries.Err? {
        return Some(entries.error);
      }
      var es := entries.value;
      var i := 0;
      while i < |es|
        invariant 0 <= i <= |es| && config.Valid()
        invariant ApplyEntries(old(config), es) == ApplyEntries(config, es[i..])
      {
        var stored := StoredConfig(es[i].value);
        if stored.Err? {
          return Some(stored.error);
        }
        config := config.Set(es[i].key, stored.value);
        assert es[i..][1..] == es[i + 1..];
        i := i + 1;
      }
      thrown := None;
    }

    /** `applyDefaultConfiguration()`. */
    method ApplyDefaultConfiguration()
      requires Valid()
      modifies this`config
      ensures Valid()
      ensures config == DefaultConfigured(old(config))
    {
      var _ := ApplyConfiguration(JObj([Field("tools", DefaultTools())]));
    }

    /** `loadConfiguration()` with the outcome of the fetch. */
    method LoadConfiguration(fetch: ConfigFetch)
      requires Valid()
      modifies this`config
      ensures Valid()
      ensures config == Loaded(old(config), fetch)
    {
      match fetch
      case FetchRejected =>
        ApplyDefaultConfiguration();
      case Fetched(ok, body) =>
        if ok {
          if body.Err? {
            ApplyDefaultConfiguration();
          } else {
            var thrown := ApplyConfiguration(body.value);
            if thrown.Some? {
              ApplyDefaultConfiguration();
            }
          }
        }
    }

    /** `connectToService(toolName, conf)`: a fresh connection, its
        handshake and tool listing; on success the connection and the
        remote tool are recorded. Returns the connection and the listing or
        the error thrown. */
    method ConnectToService(toolName: string, conf: seq<Field>, env: Env) returns (conn: McpConnection, r: Result<Json, Failure>)
      requires Valid()
      modifies this`tools, this`connections
      ensures Valid() && fresh(conn)
      ensures conn.serverUrl == DisplayLookup(FieldValue(conf, "serverUrl"))
      ensures ConnectionFor(conn, conf)
      ensures r == ConnectResult(conf, env.net)
      ensures r.Ok? ==> (tools == old(tools).Set(toolName, Remote(conf, Some(conn), r.value, env.host.now))
                     && connections == old(connections).Set(toolName, conn))
      ensures r.Err? ==> tools == old(tools) && connections == old(connections)
    {
      conn := new McpConnection(DisplayLookup(FieldValue(conf, "serverUrl")),
                                FieldValue(conf, "timeout"), FieldValue(conf, "maxRetries"));
      var init := conn.Initialize(env.net);
      if init.Err? {
        return conn, Err(init.error);
      }
      r := conn.ListTools(env.net);
      if r.Ok? {
        connections := connections.Set(toolName, conn);
        tools := tools.Set(toolName, Remote(conf, Some(conn), r.value, env.host.now));
      }
    }

    /** `connectToServices()`: every configured tool that is enabled and has
        a server URL is connected; a tool whose handshake and listing succeed
        is registered as a remote tool with its fresh connection, and every
        other key keeps its entries. */
    method ConnectToServices(env: Env)
      requires Valid()
      modifies this`tools, this`connections
      ensures Valid()
      ensures forall k :: Connects(config, k, env.net) ==>
        Registered(k, config.Get(k), tools, connections, env.net, env.host.now) && fresh(connections.Get(k))
      ensures forall k :: !Connects(config, k, env.net) ==> SameEntry(k, old(tools), tools, old(connections), connections)
    {
      var keys := config.keys;
      var i := 0;
      while i < |keys|
        invariant 0 <= i <= |keys| && Valid()
        invariant forall k :: k in keys[..i] && Connects(config, k, env.net) ==>
          Registered(k, config.Get(k), tools, connections, env.net, env.host.now) && fresh(connections.Get(k))
        invariant forall k :: !(k in keys[..i] && Connects(config, k, env.net)) ==>
          SameEntry(k, old(tools), tools, old(connections), connections)
      {
        var name := keys[i];
        assert config.Has(name) by {
          assert name in config.keys;
        }
        ghost var tools0, conns0 := tools, connections;
        ConnectOne(name, env);
        assert keys[..i + 1] == keys[..i] + [name];
        forall k | k in keys[..i + 1] && Connects(config, k, env.net)
          ensures Registered(k, config.Get(k), tools, connections, env.net, env.host.now) && fresh(connections.Get(k))
        {
          if k != name {
            assert SameEntry(k, tools0, tools, conns0, connections);
          }
        }
        forall k | !(k in keys[..i + 1] && Connects(config, k, env.net))
          ensures SameEntry(k, old(tools), tools, old(connections), connections)
        {
          assert k != name || !Connects(config, k, env.net);
          assert SameEntry(k, tools0, tools, conns0, connections);
          assert !(k in keys[..i] && Connects(config, k, env.net));
        }
        i := i + 1;
      }
      assert keys[..i] == keys;
    }

    /** One pass of the loop of `connectToServices`: `connectToService`
        for `name` when it is enabled and has a server URL. Only the entries
        of `name` can change. */
    method ConnectOne(name: string, env: Env)
      requires Valid() && config.Has(name)
      modifies this`tools, this`connections
      ensures Valid()
      ensures Connects(config, name, env.net) ==>
        Registered(name, config.Get(name), tools, connections, env.net, env.host.now) && fresh(connections.Get(name))
      ensures !Connects(config, name, env.net) ==> SameEntry(name, old(tools), tools, old(connections), connections)
      ensures forall k :: k != name ==> SameEntry(k, old(tools), tools, old(connections), connections)
    {
      var conf := config.Get(name);
      if Connectable(conf) {
        var conn, r := ConnectToService(name, conf, env);
        if r.Ok? {
          assert connections.Get(name) == conn;
        }
      } else {
        assert !Connects(config, name, env.net);
      }
    }

    /** `registerTool(name, definition)`: a new name becomes an enabled
        built-in tool with that one function; a registered name, built-in or
        remote, is left as it is. */
    method RegisterTool(name: string, definition: ToolDefinition)
      requires Valid()
      modifies this`tools
      ensures Valid()
      ensures old(tools).Has(name) ==> tools == old(tools)
      ensures !old(tools).Has(name) ==> tools == old(tools).Set(name, Builtin(BuiltinConfig(), [definition]))
    {
      if !tools.Has(name) {
        tools := tools.Set(name, Builtin(BuiltinConfig(), [definition]));
      }
    }

    /** `registerBuiltinTools()`. */
    method RegisterBuiltinTools()
      requires Valid()
      modifies this`tools
      ensures Valid()
      ensures tools.Has(DatetimeTool().name) && tools.Has(BrowserInfoTool().name)
      ensures forall k :: old(tools).Has(k) ==> tools.Has(k) && tools.Get(k) == old(tools).Get(k)
      ensures forall k :: tools.Has(k) && !old(tools).Has(k) ==>
        k in {DatetimeTool().name, BrowserInfoTool().name} && tools.Get(k).Builtin? && tools.Get(k).config == BuiltinConfig()
    {
      RegisterTool(DatetimeTool().name, DatetimeTool());
      RegisterTool(BrowserInfoTool().name, BrowserInfoTool());
    }

    /** `initialize()`: nothing when already initialised; otherwise load the
        configuration, connect, register the built-in tools and mark the
        manager initialised. No step lets an error escape. */
    method Initialize(fetch: ConfigFetch, env: Env)
      requires Valid()
      modifies this
      ensures Valid()
      ensures old(isInitialized) ==> (isInitialized && config == old(config) && tools == old(tools)
        && connections == old(connections) && cache == old(cache))
      ensures !old(isInitialized) ==> (isInitialized && config == Loaded(old(config), fetch) && cache == old(cache)
        && tools.Has(DatetimeTool().name) && tools.Has(BrowserInfoTool().name))
      ensures !old(isInitialized) ==> forall k :: tools.Has(k) && !old(tools).Has(k) ==>
        (config.Has(k) && tools.Get(k).Remote? && tools.Get(k).config == config.Get(k)) || tools.Get(k).Builtin?
      ensures !old(isInitialized) ==> forall k :: Connects(config, k, env.net) ==>
        Registered(k, config.Get(k), tools, connections, env.net, env.host.now)
    {
      if isInitialized {
        return;
      }
      ghost var tools0, conns0 := tools, connections;
      LoadConfiguration(fetch);
      ConnectToServices(env);
      forall k | tools.Has(k) && !tools0.Has(k)
        ensures config.Has(k) && tools.Get(k).Remote? && tools.Get(k).config == config.Get(k)
      {
        assert !Connects(config, k, env.net) ==> SameEntry(k, tools0, tools, conns0, connections);
      }
      RegisterBuiltinTools();
      isInitialized := true;
    }

    /** The synchronous part of `callTool` and what the awaited call yields:
        the result and whether it came from the cache. */
    method Resolve(toolName: string, fn: string, args: Json, env: Env) returns (r: Result<Json, Failure>, hit: bool)
      requires Valid()
      ensures (r, hit) == Outcome(cache, config, tools, toolName, fn, args, env)
    {
      var key := CacheKey(toolName, fn, args);
      if cache.Has(key) {
        var cached := cache.Get(key);
        var ttl := CacheTtl(config, toolName);
        if ttl.Some? && ((env.host.now - cached.timestamp) as real) < ttl.value {
          return Ok(cached.result), true;
        }
      }
      hit := false;
      if !tools.Has(toolName) {
        return Err(ToolNotFound(toolName)), false;
      }
      var info := tools.Get(toolName);
      if !Truthy(FieldValue(info.config, "enabled").AsOption()) {
        return Err(ToolDisabled(toolName)), false;
      }
      match info
      case Builtin(_, fns) =>
        var d := FindFunction(fns, fn);
        if d.None? {
          return Err(FunctionNotFound(fn, toolName)), false;
        }
        r := Ok(RunHandler(d.value.handler, env.host));
      case Remote(_, conn, _, _) =>
        if conn.None? {
          return Err(NoConnection(toolName)), false;
        }
        r := conn.value.CallTool(fn, args, env.net);
    }

    /** `callTool(toolName, fn, args)`: a fresh cached result, or the tool's
        answer, which is cached when it succeeds. */
    method CallTool(toolName: string, fn: string, args: Json, env: Env) returns (r: Result<Json, Failure>)
      requires Valid()
      modifies this`cache
      ensures Valid()
      ensures var out := Outcome(old(cache), config, tools, toolName, fn, args, env);
        r == out.0 && cache == AfterCall(old(cache), CacheKey(toolName, fn, args), out, env.host.now)
    {
      var hit;
      r, hit := Resolve(toolName, fn, args, env);
      if !hit && r.Ok? {
        cache := cache.Set(CacheKey(toolName, fn, args), CacheEntry(r.value, env.host.now));
      }
    }

    /** `callTools(calls)`: every call is resolved against the cache as the
        batch found it, then the successes are stored. */
    method CallTools(calls: seq<ToolCall>, env: Env) returns (settled: seq<Settled>)
      requires Valid()
      modifies this`cache
      ensures Valid()
      ensures var outs := BatchOutcomes(old(cache), config, tools, calls, env);
        && |settled| == |calls|
        && (forall i :: 0 <= i < |calls| ==> settled[i] == Settle(calls[i], outs[i].0, env.host.now))
        && cache == StoreAll(old(cache), calls, outs, env.host.now)
    {
      var results;
      results, settled := ResolveAll(calls, env);
      StoreOutcomes(calls, results, env.host.now);
    }

    /** The calls of a batch, all started before any completes: each sees
        the cache as the batch found it. */
    method ResolveAll(calls: seq<ToolCall>, env: Env) returns (results: seq<(Result<Json, Failure>, bool)>, settled: seq<Settled>)
      requires Valid()
      ensures results == BatchOutcomes(cache, config, tools, calls, env)
      ensures |settled| == |calls|
      ensures forall i :: 0 <= i < |calls| ==> settled[i] == Settle(calls[i], results[i].0, env.host.now)
    {
      ghost var outs := BatchOutcomes(cache, config, tools, calls, env);
      results := [];
      settled := [];
      var i := 0;
      while i < |calls|
        invariant 0 <= i <= |calls| && |outs| == |calls|
        invariant results == outs[..i] && |settled| == i
        invariant forall j :: 0 <= j < i ==> settled[j] == Settle(calls[j], outs[j].0, env.host.now)
      {
        var r, hit := Resolve(calls[i].toolName, calls[i].fn, calls[i].args, env);
        assert outs[..i + 1] == outs[..i] + [outs[i]];
        results := results + [(r, hit)];
        settled := settled + [Settle(calls[i], r, env.host.now)];
        i := i + 1;
      }
      assert outs[..i] == outs;
    }

    /** The completions of a batch, in order: each success that did not come
        from the cache is stored. */
    method StoreOutcomes(calls: seq<ToolCall>, outs: seq<(Result<Json, Failure>, bool)>, now: int)
      requires Valid() && |outs| == |calls|
      modifies this`cache
      ensures Valid()
      ensures cache == StoreAll(old(cache), calls, outs, now)
    {
      ghost var start := cache;
      var i := 0;
      while i < |calls|
        invariant 0 <= i <= |calls| && Valid()
        invariant cache == StoreAll(start, calls[..i], outs[..i], now)
      {
        var c := calls[i];
        StoreAllStep(start, calls, outs, i, now);
        cache := AfterCall(cache, CacheKey(c.toolName, c.fn, c.args), outs[i], now);
        i := i + 1;
      }
      assert calls[..i] == calls && outs[..i] == outs;
    }

    /** `getAvailableTools(sceneType)`. */
    method GetAvailableTools(sceneType: Option<string>) returns (r: Result<seq<ToolSummary>, Failure>)
      requires Valid()
      ensures r == AvailableTools(tools, sceneType)
    {
      var keys := tools.keys;
      var acc: seq<ToolSummary> := [];
      var i := 0;
      while i < |keys|
        invariant 0 <= i <= |keys|
        invariant Listed(tools, keys[..i], sceneType) == Ok(acc)
      {
        ListedStep(tools, keys, i, sceneType, acc);
        var name := keys[i];
        var s := Summary(name, tools.Get(name), sceneType);
        if s.Err? {
          ListedPrefixErr(tools, keys, i + 1, sceneType);
          return Err(s.error);
        }
        if s.value.Some? {
          acc := acc + [s.value.value];
        } else {
          assert acc + [] == acc;
        }
        i := i + 1;
      }
      assert keys[..i] == keys;
      r := Ok(SortDesc(acc, PriorityKey));
    }

    /** The body of the loop of `checkHealth` for one tool: a built-in tool
        is healthy, a remote one without a connection disconnected, and a
        connected one is pinged. */
    method ToolHealth(info: ToolInfo, net: Network) returns (h: Result<Health, Failure>)
      ensures h == HealthOf(info, net)
    {
      match info {
        case Builtin(_, _) =>
          h := Ok(Healthy(true, None));
        case Remote(_, conn, _, last) =>
          if conn.None? {
            h := Ok(Disconnected);
          } else {
            var ping := conn.value.Ping(net);
            if ping.Ok? {
              h := Ok(Healthy(false, Some(last)));
            } else if Message(ping.error).None? {
              h := Err(TypeError("Cannot read properties of undefined (reading 'message')"));
            } else {
              h := Ok(Unhealthy(Message(ping.error).value, false));
            }
          }
      }
    }

    /** `checkHealth()`: one entry per registered tool, in registration
        order. */
    method CheckHealth(net: Network) returns (r: Result<seq<(string, Health)>, Failure>)
      requires Valid()
      ensures r == HealthReport(tools.Entries(), net)
    {
      var entries := tools.Entries();
      var acc: seq<(string, Health)> := [];
      var i := 0;
      while i < |entries|
        invariant 0 <= i <= |entries|
        invariant HealthReport(entries[..i], net) == Ok(acc)
      {
        var (name, info) := entries[i];
        var h := ToolHealth(info, net);
        HealthReportStep(entries, i, net, acc, h);
        if h.Err? {
          HealthPrefixErr(entries, i + 1, net);
          return Err(h.error);
        }
        acc := acc + [(name, h.value)];
        i := i + 1;
      }
      assert entries[..i] == entries;
      r := Ok(acc);
    }

    /** `clearCache(toolName)`: with a non-empty name, the entries whose key
        starts with `name:` go and the rest stay; otherwise everything goes. */
    method ClearCache(toolName: Option<string>)
      requires Valid()
      modifies this`cache
      ensures Valid()
      ensures TruthyString(toolName) ==> forall k ::
        (cache.Has(k) <==> old(cache).Has(k) && !StartsWith(k, toolName.value + ":"))
        && (cache.Has(k) ==> cache.Get(k) == old(cache).Get(k))
      ensures !TruthyString(toolName) ==> cache == Empty()
    {
      if !TruthyString(toolName) {
        cache := Empty();
        return;
      }
      var prefix := toolName.value + ":";
      var keys := cache.keys;
      var i := 0;
      while i < |keys|
        invariant 0 <= i <= |keys| && cache.Valid()
        invariant forall k :: k in cache.table <==> k in old(cache).table && !(k in keys[..i] && StartsWith(k, prefix))
        invariant forall k :: k in cache.table ==> cache.table[k] == old(cache).table[k]
      {
        assert keys[..i + 1] == keys[..i] + [keys[i]];
        if StartsWith(keys[i], prefix) {
          cache := cache.Delete(keys[i]);
        }
        i := i + 1;
      }
      assert keys[..i] == keys;
    }

    /** The connections `disconnect` closes. */
    ghost function Connections(): set<McpConnection>
      reads this
    {
      connections.table.Values
    }

    /** `disconnect()`: every connection is closed; connections, tools and
        cache are emptied and the manager must be initialised again. The
        configuration stays. */
    method Disconnect()
      requires Valid()
      modifies this, Connections()
      ensures Valid() && !isInitialized
      ensures connections == Empty() && tools == Empty() && cache == Empty()
      ensures config == old(config)
      ensures forall c :: c in old(Connections()) ==> !c.isConnected
    {
      var keys := connections.keys;
      var i := 0;
      while i < |keys|
        invariant 0 <= i <= |keys|
        invariant connections == old(connections) && config == old(config)
        invariant forall j :: 0 <= j < i ==> !connections.Get(keys[j]).isConnected
      {
        var conn := connections.Get(keys[i]);
        conn.Close();
        i := i + 1;
      }
      forall c | c in old(Connections()) ensures !c.isConnected {
        var k :| k in old(connections).table && old(connections).table[k] == c;
        var j :| 0 <= j < |keys| && keys[j] == k;
      }
      connections := Empty();
      tools := Empty();
      cache := Empty();
      isInitialized := false;
    }
  }
}
