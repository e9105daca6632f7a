/** The browser side of the plugin (index.js): the settings object kept in
    `extension_settings["mcp-integration"]` and its defaults, a simplified
    scene analyser, a tool manager with its own cache and counters whose
    tool calls are simulated, and the pipeline run on each user input.

    The settings object is a JSON object, as the host stores it; the time
    `Date.now()` is the parameter `now`. */
module ClientPlugin {
  import opened Common
  import opened JsonValues
  import opened Failures
  import opened OrderedMaps
  import opened ScenePatterns

  // ===========================================================================
  // Settings

  /** One tool's entry of `defaultSettings.tools`; every tool starts disabled. */
  function ToolDefaults(url: string, timeout: int, cacheTimeout: int, priority: Json, sceneType: string,
                        description: string): Json {
    JObj([Field("enabled", JBool(false)), Field("serverUrl", JStr(url)), Field("timeout", Int(timeout)),
          Field("maxRetries", Int(2)), Field("cacheTimeout", Int(cacheTimeout)), Field("priority", priority),
          Field("sceneTypes", JArr([JStr(sceneType)])), Field("description", JStr(description))])
  }

  /** `defaultSettings`. */
  function DefaultSettings(): seq<Field> {
    [Field("enabled", JBool(true)), Field("autoTrigger", JBool(true)), Field("maxToolsPerGeneration", Int(3)),
     Field("timeoutMs", Int(8000)), Field("confidenceThreshold", JNum(4, 1)), Field("enableCaching", JBool(true)),
     Field("debugMode", JBool(false)),
     Field("tools", JObj([
       Field("weather-api", ToolDefaults("http://localhost:3001/mcp", 5000, 300000, Int(1), "weather", "获取实时天气信息")),
       Field("web-search", ToolDefaults("http://localhost:3002/mcp", 8000, 600000, JNum(9, 1), "search", "搜索网络信息")),
       Field("conversation-memory", ToolDefaults("http://localhost:3003/mcp", 5000, 300000, Int(1), "memory", "检索对话记忆"))]))]
  }

  /** One step of the `forEach` over the default keys: a key whose value is
      undefined gets (a copy of) its default. */
  function DefaultStep(fields: seq<Field>, d: Field): seq<Field> {
    if FieldValue(fields, d.key).Undefined? then SetField(fields, d.key, d.value) else fields
  }

  /** The settings object after the `forEach` over the keys of `defaults`. */
  function WithDefaults(fields: seq<Field>, defaults: seq<Field>): seq<Field>
    decreases |defaults|
  {
    if defaults == [] then fields else WithDefaults(DefaultStep(fields, defaults[0]), defaults[1..])
  }

  /** Defaulting never overwrites: a key that has a value keeps it, and a
      key that has none takes the default's value (or stays undefined when
      there is no default for it). */
  lemma {:induction false} WithDefaultsValue(fields: seq<Field>, defaults: seq<Field>, k: string)
    ensures FieldValue(WithDefaults(fields, defaults), k) ==
      if FieldValue(fields, k).Value? then FieldValue(fields, k) else FieldValue(defaults, k)
    decreases |defaults|
  {
    if defaults != [] {
      WithDefaultsValue(DefaultStep(fields, defaults[0]), defaults[1..], k);
    }
  }

  /** When every default key already has a value, defaulting changes nothing. */
  lemma {:induction false} WithDefaultsFixed(fields: seq<Field>, defaults: seq<Field>)
    requires forall i :: 0 <= i < |defaults| ==> FieldValue(fields, defaults[i].key).Value?
    ensures WithDefaults(fields, defaults) == fields
    decreases |defaults|
  {
    if defaults != [] {
      assert DefaultStep(fields, defaults[0]) == fields;
      assert forall i :: 0 <= i < |defaults[1..]| ==> defaults[1..][i] == defaults[i + 1];
      WithDefaultsFixed(fields, defaults[1..]);
    }
  }

  /** Running `initializeSettings` a second time changes nothing. */
  lemma WithDefaultsIdempotent(fields: seq<Field>, defaults: seq<Field>)
    ensures WithDefaults(WithDefaults(fields, defaults), defaults) == WithDefaults(fields, defaults)
  {
    var once := WithDefaults(fields, defaults);
    forall i | 0 <= i < |defaults| ensures FieldValue(once, defaults[i].key).Value? {
      WithDefaultsValue(fields, defaults, defaults[i].key);
      FieldValueDefined(defaults, defaults[i].key);
    }
    WithDefaultsFixed(once, defaults);
  }

  /** Fresh settings are exactly the defaults. */
  lemma DefaultsComplete()
    ensures WithDefaults(DefaultSettings(), DefaultSettings()) == DefaultSettings()
  {
    var d := DefaultSettings();
    forall i | 0 <= i < |d| ensures FieldValue(d, d[i].key).Value? {
      FieldValueDefined(d, d[i].key);
    }
    WithDefaultsFixed(d, d);
  }

  /** `updateToolSetting(toolName, property, value)`: the settings object
      afterwards, or the TypeError it throws. A missing (falsy) tool entry
      is first replaced by `{}`. A `tools` value that is not an object
      makes the read or the write throw. */
  function ToolSettingUpdated(settings: seq<Field>, toolName: string, property: string, value: Json)
    : (r: Result<seq<Field>, Failure>)
  {
    match FieldValue(settings, "tools")
    case Undefined => Err(TypeError("Cannot read properties of undefined (reading '" + toolName + "')"))
    case Value(JObj(tools)) =>
      var current := FieldValue(tools, toolName);
      var entry := if Truthy(current.AsOption()) then current.v else JObj([]);
      if entry.JObj? then
        Ok(SetField(settings, "tools", JObj(SetField(tools, toolName, JObj(SetField(entry.fields, property, value))))))
      else Err(TypeError("Cannot create property '" + property + "' on a primitive value"))
    case Value(JNull) => Err(TypeError("Cannot read properties of null (reading '" + toolName + "')"))
    case _ => Err(TypeError("Cannot create property '" + toolName + "' on a primitive value"))
  }

  /** A successful update sets exactly `tools[toolName][property]`: the
      tool's other properties, the other tools and the other settings keep
      their values. It succeeds exactly when `tools` is an object and the
      tool's entry is an object or falsy. */
  lemma ToolSettingUpdatedSpec(settings: seq<Field>, toolName: string, property: string, value: Json)
    ensures var r := ToolSettingUpdated(settings, toolName, property, value);
      && (r.Ok? <==> (FieldValue(settings, "tools").Value? && FieldValue(settings, "tools").v.JObj?
            && var current := FieldValue(FieldValue(settings, "tools").v.fields, toolName);
               (!Truthy(current.AsOption()) || current.v.JObj?)))
      && (r.Ok? ==>
            var tools := FieldValue(r.value, "tools");
            var oldTools := FieldValue(settings, "tools").v.fields;
            && tools.Value? && tools.v.JObj?
            && (forall k :: k != "tools" ==> FieldValue(r.value, k) == FieldValue(settings, k))
            && (forall n :: n != toolName ==> FieldValue(tools.v.fields, n) == FieldValue(oldTools, n))
            && var entry := FieldValue(tools.v.fields, toolName);
            && entry.Value? && entry.v.JObj?
            && FieldValue(entry.v.fields, property) == Value(value)
            && (forall p :: p != property ==> (FieldValue(entry.v.fields, p) ==
                  var current := FieldValue(oldTools, toolName);
                  if Truthy(current.AsOption()) then FieldValue(current.v.fields, p) else Undefined)))
  {
  }

  /** `extension_settings[extensionName]`: absent until the plugin first
      runs, then the plugin's settings object. */
  class SettingsStore {
    var entry: Option<seq<Field>>

    constructor (entry: Option<seq<Field>>)
      ensures this.entry == entry
    {
      this.entry := entry;
    }

    /** `initializeSettings()`: installs a copy of the defaults when there
        are no settings yet, then gives every missing top-level key its
        default, leaving the keys that have a value untouched. */
    method InitializeSettings()
      modifies this
      ensures entry == Some(WithDefaults(old(entry).GetOr(DefaultSettings()), DefaultSettings()))
      ensures old(entry).None? ==> entry == Some(DefaultSettings())
      ensures forall k :: (FieldValue(entry.value, k) ==
        var before := old(entry).GetOr(DefaultSettings());
        if FieldValue(before, k).Value? then FieldValue(before, k) else FieldValue(DefaultSettings(), k))
    {
      if entry.None? {
        entry := Some(DefaultSettings());
        DefaultsComplete();
      }
      ghost var start := entry.value;
      FillDefaults(DefaultSettings());
      forall k ensures FieldValue(entry.value, k) ==
        if FieldValue(start, k).Value? then FieldValue(start, k) else FieldValue(DefaultSettings(), k)
      {
        WithDefaultsValue(start, DefaultSettings(), k);
      }
    }

    /** The `forEach` over the keys of `defaults`. */
    method FillDefaults(defaults: seq<Field>)
      requires entry.Some?
      modifies this
      ensures entry == Some(WithDefaults(old(entry).value, defaults))
    {
      var i := 0;
      while i < |defaults|
        invariant 0 <= i <= |defaults| && entry.Some?
        invariant WithDefaults(entry.value, defaults[i..]) == WithDefaults(old(entry).value, defaults)
      {
        assert defaults[i..][1..] == defaults[i + 1..];
        var key := defaults[i].key;
        if FieldValue(entry.value, key).Undefined? {
          entry := Some(SetField(entry.value, key, defaults[i].value));
        }
        i := i + 1;
      }
    }

    /** `updateSettings(newSettings)`: `Object.assign` of the new values. */
    method UpdateSettings(newSettings: seq<Field>) returns (r: Result<(), Failure>)
      modifies this
      ensures old(entry).None? ==> r.Err? && entry == old(entry)
      ensures old(entry).Some? ==> r.Ok? && entry == Some(Spread(old(entry).value, newSettings))
    {
      if entry.None? {
        return Err(TypeError("Cannot convert undefined or null to object"));
      }
      entry := Some(Spread(entry.value, newSettings));
      r := Ok(());
    }

    /** `updateToolSetting(toolName, property, value)`. */
    method UpdateToolSetting(toolName: string, property: string, value: Json) returns (r: Result<(), Failure>)
      modifies this
      ensures old(entry).None? ==> r.Err? && entry == old(entry)
      ensures old(entry).Some? ==>
        var u := ToolSettingUpdated(old(entry).value, toolName, property, value);
        && (u.Ok? ==> r.Ok? && entry == Some(u.value))
        && (u.Err? ==> r == Err(u.error) && entry == old(entry))
    {
      if entry.None? {
        return Err(TypeError("Cannot read properties of undefined (reading 'tools')"));
      }
      var u := ToolSettingUpdated(entry.value, toolName, property, value);
      if u.Err? {
        return Err(u.error);
      }
      entry := Some(u.value);
      r := Ok(());
    }
  }

  // ===========================================================================
  // ClientSceneAnalyzer

  /** `ClientSceneAnalyzer`'s `scenePatterns`, in the object's order. The
      regular expression `今天.*?(天气|温度)|明天.*?(天气|温度)` tests the
      same as `(今天|明天).*?(天气|温度)`. */
  function ClientPatterns(): seq<(string, seq<Shape>)> {
    [("weather", [AnyOf(["天气", "weather", "温度", "temperature", "下雨", "rain", "晴天", "sunny", "cloudy", "阴天"]),
                  Ordered(["今天", "明天"], ["天气", "温度"])]),
     ("search", [AnyOf(["搜索", "search", "查找", "find", "寻找", "look for"]),
                 AnyOf(["什么是", "what is", "告诉我", "tell me about"])]),
     ("memory", [AnyOf(["记得", "remember", "回忆", "recall", "之前", "before", "earlier"]),
                 Ordered(["我们"], ["说过", "谈过", "讨论过"])])]
  }

  /** One entry of `getSuggestedTools`' result. */
  datatype Suggestion = Suggestion(name: string, priority: Option<Json>, description: Option<Json>)

  /** One entry of `analyzeScene`'s result. */
  datatype ClientScene = ClientScene(sceneType: string, confidence: real, suggestedTools: seq<Suggestion>)

  /** `Object.entries(x)`: an object's fields, an array's or a string's
      indexed elements, nothing for a number or a boolean; null and
      undefined throw. */
  function ObjectEntries(x: Lookup): (r: Result<seq<Field>, Failure>)
    ensures x.Value? && x.v.JObj? ==> r == Ok(x.v.fields)
  {
    match x
    case Value(JObj(fields)) => Ok(fields)
    case Value(JArr(items)) => Ok(seq(|items|, i requires 0 <= i < |items| => Field(NatToString(i), items[i])))
    case Value(JStr(s)) => Ok(seq(|s|, i requires 0 <= i < |s| => Field(NatToString(i), JStr([s[i]]))))
    case Value(JNull) => Err(TypeError("Cannot convert undefined or null to object"))
    case Undefined => Err(TypeError("Cannot convert undefined or null to object"))
    case Throws => Err(TypeError("Cannot convert undefined or null to object"))
    case _ => Ok([])
  }

  /** The suggestion made for one `[toolName, toolConfig]` entry: none when
      the tool is not enabled or not meant for the scene, and a TypeError
      when the config is null or its `sceneTypes` has no `includes`. */
  function Pick(f: Field, sceneType: string): Result<Option<Suggestion>, Failure> {
    var enabled := Prop(f.value, "enabled");
    if enabled.Throws? then Err(TypeError("Cannot read properties of null (reading 'enabled')"))
    else if !Truthy(enabled.AsOption()) then Ok(None)
    else
      var types := Prop(f.value, "sceneTypes");
      match Includes(types, sceneType)
      case None =>
        if types.Undefined? || types == Value(JNull) then Err(TypeError("Cannot read properties of undefined (reading 'includes')"))
        else Err(TypeError("toolConfig.sceneTypes.includes is not a function"))
      case Some(b) =>
        if b then Ok(Some(Suggestion(f.key, Prop(f.value, "priority").AsOption(), Prop(f.value, "description").AsOption())))
        else Ok(None)
  }

  /** The tool of `f` is enabled and lists the scene type. */
  predicate Offered(f: Field, sceneType: string) {
    Pick(f, sceneType).Ok? && Pick(f, sceneType).value.Some?
  }

  /** The loop of `getSuggestedTools` over the entries, before sorting. */
  function Suggestions(entries: seq<Field>, sceneType: string): Result<seq<Suggestion>, Failure> {
    if entries == [] then Ok([])
    else
      match Suggestions(entries[..|entries| - 1], sceneType)
      case Err(e) => Err(e)
      case Ok(acc) =>
        match Pick(entries[|entries| - 1], sceneType)
        case Err(e) => Err(e)
        case Ok(p) => Ok(if p.Some? then acc + [p.value] else acc)
  }

  /** `b.priority - a.priority` as a sort key. A priority that is not a
      number counts as 0. */
  function PriorityKey(s: Suggestion): real {
    if s.priority.Some? && ToNumber(Value(s.priority.value)).Some? then ToNumber(Value(s.priority.value)).value else 0.0
  }

  /** `getSuggestedTools(sceneType)` against the settings object. */
  function SuggestedTools(settings: seq<Field>, sceneType: string): Result<seq<Suggestion>, Failure> {
    match ObjectEntries(FieldValue(settings, "tools"))
    case Err(e) => Err(e)
    case Ok(entries) =>
      match Suggestions(entries, sceneType)
      case Err(e) => Err(e)
      case Ok(ts) => Ok(SortDesc(ts, PriorityKey))
  }

  /** The loop over the entries throws exactly when some entry's check
      throws. */
  lemma {:induction false} SuggestionsThrow(entries: seq<Field>, sceneType: string)
    ensures Suggestions(entries, sceneType).Err? <==> exists i :: 0 <= i < |entries| && Pick(entries[i], sceneType).Err?
  {
    if entries != [] {
      var init := entries[..|entries| - 1];
      SuggestionsThrow(init, sceneType);
      if Suggestions(init, sceneType).Err? {
        var i :| 0 <= i < |init| && Pick(init[i], sceneType).Err?;
        assert init[i] == entries[i];
      } else {
        forall i | 0 <= i < |init| ensures Pick(entries[i], sceneType).Ok? {
          assert init[i] == entries[i];
        }
      }
    }
  }

  /** The suggestions are exactly those of the enabled tools that list the
      scene type, each once per entry and in entry order. */
  lemma {:induction false} SuggestionsMembers(entries: seq<Field>, sceneType: string)
    ensures var r := Suggestions(entries, sceneType);
      r.Ok? ==> forall t :: t in r.value <==>
        exists i :: 0 <= i < |entries| && Offered(entries[i], sceneType) && Pick(entries[i], sceneType).value == Some(t)
  {
    if entries != [] {
      var init := entries[..|entries| - 1];
      var last := entries[|entries| - 1];
      SuggestionsMembers(init, sceneType);
      if Suggestions(init, sceneType).Ok? && Pick(last, sceneType).Ok? {
        var acc := Suggestions(init, sceneType).value;
        var p := Pick(last, sceneType).value;
        var r := Suggestions(entries, sceneType).value;
        assert r == if p.Some? then acc + [p.value] else acc;
        forall t | t in r
          ensures exists i :: 0 <= i < |entries| && Offered(entries[i], sceneType) && Pick(entries[i], sceneType).value == Some(t)
        {
          if t in acc {
            var i :| 0 <= i < |init| && Offered(init[i], sceneType) && Pick(init[i], sceneType).value == Some(t);
            assert init[i] == entries[i];
          } else {
            assert Offered(entries[|init|], sceneType) && Pick(entries[|init|], sceneType).value == Some(t);
          }
        }
        forall t, i | 0 <= i < |entries| && Offered(entries[i], sceneType) && Pick(entries[i], sceneType).value == Some(t)
          ensures t in r
        {
          if i < |init| {
            assert init[i] == entries[i];
          }
        }
      }
    }
  }

  /** `getSuggestedTools` returns the enabled tools meant for the scene,
      sorted by non-increasing priority, each tool of the table once. */
  lemma SuggestedToolsSpec(settings: seq<Field>, sceneType: string)
    ensures var r := SuggestedTools(settings, sceneType);
      r.Ok? ==>
        && SortedDesc(r.value, PriorityKey)
        && var entries := ObjectEntries(FieldValue(settings, "tools")).value;
        && forall t :: t in r.value <==>
            exists i :: 0 <= i < |entries| && Offered(entries[i], sceneType) && Pick(entries[i], sceneType).value == Some(t)
  {
    var es := ObjectEntries(FieldValue(settings, "tools"));
    if es.Ok? {
      SuggestionsThrow(es.value, sceneType);
      SuggestionsMembers(es.value, sceneType);
      var s := Suggestions(es.value, sceneType);
      if s.Ok? {
        SortDescProps(s.value, PriorityKey);
        PermutationMembers(SortDesc(s.value, PriorityKey), s.value);
      }
    }
  }

  /** Some regular expression of the list matches the text. */
  predicate AnyMatches(patterns: seq<Shape>, text: string) {
    exists i :: 0 <= i < |patterns| && Matches(patterns[i], text)
  }

  /** The entry `analyzeScene` makes for one scene type, if any. */
  function SceneEntry(def: (string, seq<Shape>), text: string, settings: seq<Field>): Result<Option<ClientScene>, Failure> {
    if !AnyMatches(def.1, text) then Ok(None)
    else
      match SuggestedTools(settings, def.0)
      case Err(e) => Err(e)
      case Ok(ts) => Ok(Some(ClientScene(def.0, 0.8, ts)))
  }

  /** The loop of `analyzeScene` over the scene types, before sorting. */
  function SceneEntries(defs: seq<(string, seq<Shape>)>, text: string, settings: seq<Field>): Result<seq<ClientScene>, Failure> {
    if defs == [] then Ok([])
    else
      match SceneEntries(defs[..|defs| - 1], text, settings)
      case Err(e) => Err(e)
      case Ok(acc) =>
        match SceneEntry(defs[|defs| - 1], text, settings)
        case Err(e) => Err(e)
        case Ok(s) => Ok(if s.Some? then acc + [s.value] else acc)
  }

  function ClientConf(s: ClientScene): real {
    s.confidence
  }

  /** `analyzeScene({ userInput, chatHistory })` with the pattern table
      `defs`. */
  function ClientScenes(defs: seq<(string, seq<Shape>)>, userInput: string, settings: seq<Field>): Result<seq<ClientScene>, Failure> {
    match SceneEntries(defs, ToLower(userInput), settings)
    case Err(e) => Err(e)
    case Ok(ss) => Ok(SortDesc(ss, ClientConf))
  }

  /** The scene types of a list of entries. */
  ghost function SceneTypes(ss: seq<ClientScene>): set<string> {
    set s | s in ss :: s.sceneType
  }

  /** The scene types one of whose patterns matches the text. */
  ghost function MatchedTypes(defs: seq<(string, seq<Shape>)>, text: string): set<string> {
    set i | 0 <= i < |defs| && AnyMatches(defs[i].1, text) :: defs[i].0
  }

  lemma MatchedTypesSnoc(defs: seq<(string, seq<Shape>)>, text: string)
    requires defs != []
    ensures MatchedTypes(defs, text) == MatchedTypes(defs[..|defs| - 1], text)
      + (if AnyMatches(defs[|defs| - 1].1, text) then {defs[|defs| - 1].0} else {})
  {
    var init := defs[..|defs| - 1];
    forall t | t in MatchedTypes(defs, text)
      ensures t in MatchedTypes(init, text) || (AnyMatches(defs[|defs| - 1].1, text) && t == defs[|defs| - 1].0)
    {
      var i :| 0 <= i < |defs| && AnyMatches(defs[i].1, text) && defs[i].0 == t;
      if i < |init| {
        assert init[i] == defs[i];
      }
    }
    forall t | t in MatchedTypes(init, text) ensures t in MatchedTypes(defs, text) {
      var i :| 0 <= i < |init| && AnyMatches(init[i].1, text) && init[i].0 == t;
      assert defs[i] == init[i];
    }
  }

  /** Every entry has confidence 0.8 and `getSuggestedTools`' tools, and a
      scene type appears exactly when one of its patterns matches. */
  lemma {:induction false} SceneEntriesSpec(defs: seq<(string, seq<Shape>)>, text: string, settings: seq<Field>)
    ensures var r := SceneEntries(defs, text, settings);
      r.Ok? ==>
        && (forall s :: s in r.value ==> s.confidence == 0.8 && SuggestedTools(settings, s.sceneType) == Ok(s.suggestedTools))
        && SceneTypes(r.value) == MatchedTypes(defs, text)
  {
    if defs != [] {
      var init := defs[..|defs| - 1];
      var last := defs[|defs| - 1];
      SceneEntriesSpec(init, text, settings);
      MatchedTypesSnoc(defs, text);
      var r := SceneEntries(defs, text, settings);
      if r.Ok? {
        var acc := SceneEntries(init, text, settings).value;
        var e := SceneEntry(last, text, settings).value;
        if e.Some? {
          assert r.value == acc + [e.value];
          assert SceneTypes(r.value) == SceneTypes(acc) + {last.0};
        } else {
          assert r.value == acc;
        }
      }
    }
  }

  /** Sorting a list whose keys are all equal leaves it as it is
      (`Array.prototype.sort` is stable). */
  lemma {:induction false} SortDescConstant<T>(s: seq<T>, key: T -> real, c: real)
    requires forall x :: x in s ==> key(x) == c
    ensures SortDesc(s, key) == s
  {
    if s != [] {
      SortDescConstant(s[1..], key, c);
      assert s[0] in s;
      if s[1..] != [] {
        assert s[1] in s;
      }
      assert s == [s[0]] + s[1..];
    }
  }

  /** `analyzeScene` reports the scene types with a matching pattern, in
      the order of the pattern table, each with confidence 0.8: the sort by
      confidence keeps that order. */
  lemma ClientScenesSpec(defs: seq<(string, seq<Shape>)>, userInput: string, settings: seq<Field>)
    ensures var r := ClientScenes(defs, userInput, settings);
      r.Ok? ==>
        && r.value == SceneEntries(defs, ToLower(userInput), settings).value
        && SortedDesc(r.value, ClientConf)
        && (forall s :: s in r.value ==> s.confidence == 0.8 && SuggestedTools(settings, s.sceneType) == Ok(s.suggestedTools))
        && SceneTypes(r.value) == MatchedTypes(defs, ToLower(userInput))
  {
    var raw := SceneEntries(defs, ToLower(userInput), settings);
    SceneEntriesSpec(defs, ToLower(userInput), settings);
    if raw.Ok? {
      SortDescConstant(raw.value, ClientConf, 0.8);
      SortDescProps(raw.value, ClientConf);
      PermutationMembers(SortDesc(raw.value, ClientConf), raw.value);
    }
  }

  class ClientSceneAnalyzer {
    const scenePatterns: seq<(string, seq<Shape>)>

    constructor ()
      ensures scenePatterns == ClientPatterns()
    {
      scenePatterns := ClientPatterns();
    }

    /** `analyzeScene({ userInput, chatHistory })`, reading the settings
        object for the suggested tools. */
    method AnalyzeScene(userInput: string, settings: seq<Field>) returns (r: Result<seq<ClientScene>, Failure>)
      ensures r == ClientScenes(scenePatterns, userInput, settings)
    {
      var text := ToLower(userInput);
      var results: seq<ClientScene> := [];
      var k := 0;
      while k < |scenePatterns|
        invariant 0 <= k <= |scenePatterns|
        invariant SceneEntries(scenePatterns[..k], text, settings) == Ok(results)
      {
        assert scenePatterns[..k + 1][..k] == scenePatterns[..k];
        var patterns := scenePatterns[k].1;
        var confidence := 0.0;
        var i := 0;
        while i < |patterns|
          invariant 0 <= i <= |patterns|
          invariant confidence == if exists j :: 0 <= j < i && Matches(patterns[j], text) then 0.8 else 0.0
        {
          if Matches(patterns[i], text) {
            confidence := if confidence > 0.8 then confidence else 0.8;
          }
          i := i + 1;
        }
        if confidence > 0.0 {
          var tools := GetSuggestedTools(scenePatterns[k].0, settings);
          if tools.Err? {
            assert SceneEntries(scenePatterns[..k + 1], text, settings) == Err(tools.error);
            SceneEntriesPrefixErr(scenePatterns, k + 1, text, settings);
            return Err(tools.error);
          }
          results := results + [ClientScene(scenePatterns[k].0, confidence, tools.value)];
        } else {
          assert results + [] == results;
        }
        k := k + 1;
      }
      assert scenePatterns[..k] == scenePatterns;
      r := Ok(SortDesc(results, ClientConf));
    }

    /** `getSuggestedTools(sceneType)`. */
    method GetSuggestedTools(sceneType: string, settings: seq<Field>) returns (r: Result<seq<Suggestion>, Failure>)
      ensures r == SuggestedTools(settings, sceneType)
    {
      var entries := ObjectEntries(FieldValue(settings, "tools"));
      if entries.Err? {
        return Err(entries.error);
      }
      var es := entries.value;
      var tools: seq<Suggestion> := [];
      var i := 0;
      while i < |es|
        invariant 0 <= i <= |es|
        invariant Suggestions(es[..i], sceneType) == Ok(tools)
      {
        assert es[..i + 1][..i] == es[..i];
        var p := Pick(es[i], sceneType);
        if p.Err? {
          SuggestionsPrefixErr(es, i + 1, sceneType);
          return Err(p.error);
        }
        if p.value.Some? {
          tools := tools + [p.value.value];
        } else {
          assert tools + [] == tools;
        }
        i := i + 1;
      }
      assert es[..i] == es;
      r := Ok(SortDesc(tools, PriorityKey));
    }
  }

  /** Once a prefix of the entries throws, the whole loop throws the same. */
  lemma {:induction false} SuggestionsPrefixErr(es: seq<Field>, n: nat, sceneType: string)
    requires n <= |es| && Suggestions(es[..n], sceneType).Err?
    ensures Suggestions(es, sceneType) == Suggestions(es[..n], sceneType)
    decreases |es| - n
  {
    if n < |es| {
      assert es[..n + 1][..n] == es[..n];
      SuggestionsPrefixErr(es, n + 1, sceneType);
    } else {
      assert es[..n] == es;
    }
  }

  /** Once a prefix of the scene types throws, the whole loop throws the same. */
  lemma {:induction false} SceneEntriesPrefixErr(defs: seq<(string, seq<Shape>)>, n: nat, text: string, settings: seq<Field>)
    requires n <= |defs| && SceneEntries(defs[..n], text, settings).Err?
    ensures SceneEntries(defs, text, settings) == SceneEntries(defs[..n], text, settings)
    decreases |defs| - n
  {
    if n < |defs| {
      assert defs[..n + 1][..n] == defs[..n];
      SceneEntriesPrefixErr(defs, n + 1, text, settings);
    } else {
      assert defs[..n] == defs;
    }
  }

  // ===========================================================================
  // ClientMcpToolManager

  datatype ClientCacheEntry = ClientCacheEntry(result: Json, timestamp: int)

  datatype ClientStats = ClientStats(totalCalls: nat, successfulCalls: nat, failedCalls: nat, cacheHits: nat)

  /** Every call that reached the (simulated) backend succeeded or failed. */
  predicate Balanced(st: ClientStats) {
    st.successfulCalls + st.failedCalls == st.totalCalls
  }

  /** `${toolName}:${functionName}:${JSON.stringify(args)}`. */
  function CacheKey(toolName: string, functionName: string, args: Json): string {
    toolName + ":" + functionName + ":" + Stringify(args)
  }

  /** What `simulateToolCall` resolves to. */
  function SimulatedResult(toolName: string, functionName: string, args: Json, now: int): Json {
    JObj([Field("tool", JStr(toolName)), Field("function", JStr(functionName)), Field("args", args),
          Field("result", JStr("模拟" + toolName + "工具调用结果")), Field("timestamp", Int(now))])
  }

  /** `Date.now() - cached.timestamp < toolConfig.cacheTimeout`; a timeout
      that is not a number (NaN) makes the comparison false. */
  predicate Fresh(e: ClientCacheEntry, cacheTimeout: Option<real>, now: int) {
    cacheTimeout.Some? && ((now - e.timestamp) as real) < cacheTimeout.value
  }

  /** What one `callTool` returns (or throws), and the cache and counters
      after it. */
  datatype CallStep = CallStep(result: Result<Json, Failure>, cache: OMap<ClientCacheEntry>, stats: ClientStats)

  /** `settings.tools[toolName]`. */
  function ToolConfig(settings: seq<Field>, toolName: string): Lookup {
    PropOf(FieldValue(settings, "tools"), toolName)
  }

  /** The tool's config is present and its `enabled` is truthy. */
  predicate ToolEnabled(settings: seq<Field>, toolName: string) {
    var config := ToolConfig(settings, toolName);
    !config.Throws? && Truthy(config.AsOption()) && Truthy(Prop(config.v, "enabled").AsOption())
  }

  /** The lookup in the cache succeeds for this key. */
  predicate CacheHit(cache: OMap<ClientCacheEntry>, settings: seq<Field>, toolName: string, key: string, now: int) {
    && ToolEnabled(settings, toolName)
    && Truthy(FieldValue(settings, "enableCaching").AsOption())
    && cache.Has(key)
    && Fresh(cache.Get(key), ToNumber(Prop(ToolConfig(settings, toolName).v, "cacheTimeout")), now)
  }

  /** `callTool(toolName, functionName, args)` at time `now`. */
  function ClientCall(cache: OMap<ClientCacheEntry>, stats: ClientStats, settings: seq<Field>,
                      toolName: string, functionName: string, args: Json, now: int): (s: CallStep)
    requires cache.Valid()
    ensures s.cache.Valid()
  {
    var tools := FieldValue(settings, "tools");
    var config := ToolConfig(settings, toolName);
    if config.Throws? then
      CallStep(Err(TypeError("Cannot read properties of " + (if tools.Undefined? then "undefined" else "null")
        + " (reading '" + toolName + "')")), cache, stats)
    else if !ToolEnabled(settings, toolName) then CallStep(Err(NotEnabled(toolName)), cache, stats)
    else
      var key := CacheKey(toolName, functionName, args);
      if CacheHit(cache, settings, toolName, key, now) then
        CallStep(Ok(cache.Get(key).result), cache, stats.(cacheHits := stats.cacheHits + 1))
      else
        var result := SimulatedResult(toolName, functionName, args, now);
        var caching := Truthy(FieldValue(settings, "enableCaching").AsOption());
        CallStep(Ok(result), if caching then cache.Set(key, ClientCacheEntry(result, now)) else cache,
          stats.(totalCalls := stats.totalCalls + 1, successfulCalls := stats.successfulCalls + 1))
  }

  /** A call fails exactly when the tool is missing or disabled, and then it
      touches neither the cache nor the counters. */
  lemma ClientCallRefused(cache: OMap<ClientCacheEntry>, stats: ClientStats, settings: seq<Field>,
                          toolName: string, functionName: string, args: Json, now: int)
    requires cache.Valid()
    ensures var s := ClientCall(cache, stats, settings, toolName, functionName, args, now);
      && (s.result.Err? <==> !ToolEnabled(settings, toolName))
      && (s.result.Err? ==> s.cache == cache && s.stats == stats)
      && (s.result.Err? && !ToolConfig(settings, toolName).Throws? ==> s.result == Err(NotEnabled(toolName)))
  {
  }

  /** A cache hit returns the stored result and only counts the hit; any
      other successful call reaches the backend, counts a successful call
      and stores the result exactly when caching is on. No call ever counts
      a failure, and the counters stay balanced. */
  lemma ClientCallCounts(cache: OMap<ClientCacheEntry>, stats: ClientStats, settings: seq<Field>,
                         toolName: string, functionName: string, args: Json, now: int)
    requires cache.Valid()
    ensures var s := ClientCall(cache, stats, settings, toolName, functionName, args, now);
      var key := CacheKey(toolName, functionName, args);
      && s.stats.failedCalls == stats.failedCalls
      && (Balanced(stats) ==> Balanced(s.stats))
      && (CacheHit(cache, settings, toolName, key, now) ==>
            s.result == Ok(cache.Get(key).result) && s.cache == cache
            && s.stats == stats.(cacheHits := stats.cacheHits + 1))
      && (ToolEnabled(settings, toolName) && !CacheHit(cache, settings, toolName, key, now) ==>
            && s.result == Ok(SimulatedResult(toolName, functionName, args, now))
            && s.stats == stats.(totalCalls := stats.totalCalls + 1, successfulCalls := stats.successfulCalls + 1)
            && (Truthy(FieldValue(settings, "enableCaching").AsOption()) ==>
                  s.cache.table == cache.table[key := ClientCacheEntry(s.result.value, now)])
            && (!Truthy(FieldValue(settings, "enableCaching").AsOption()) ==> s.cache == cache))
  {
  }

  /** With caching on and a positive cache timeout, repeating a successful
      call at the same moment is a cache hit that returns the same result
      and changes nothing but the hit counter. */
  lemma ClientCallRepeat(cache: OMap<ClientCacheEntry>, stats: ClientStats, settings: seq<Field>,
                         toolName: string, functionName: string, args: Json, now: int)
    requires cache.Valid()
    requires Truthy(FieldValue(settings, "enableCaching").AsOption())
    requires ToolEnabled(settings, toolName)
    requires var t := ToNumber(Prop(ToolConfig(settings, toolName).v, "cacheTimeout")); t.Some? && t.value > 0.0
    ensures var first := ClientCall(cache, stats, settings, toolName, functionName, args, now);
      var second := ClientCall(first.cache, first.stats, settings, toolName, functionName, args, now);
      && second.result == first.result
      && second.cache == first.cache
      && second.stats == first.stats.(cacheHits := first.stats.cacheHits + 1)
  {
    var key := CacheKey(toolName, functionName, args);
    var first := ClientCall(cache, stats, settings, toolName, functionName, args, now);
    assert first.cache.Has(key) && first.cache.Get(key).result == first.result.value;
    assert CacheHit(first.cache, settings, toolName, key, now);
  }

  /** The keys `clearCache(toolName)` keeps: all but those starting with
      `toolName:`, or none when no (or an empty) tool name is given. */
  predicate Kept(key: string, toolName: Option<string>) {
    TruthyString(toolName) && !StartsWith(key, toolName.value + ":")
  }

  class ClientMcpToolManager {
    var cache: OMap<ClientCacheEntry>
    var stats: ClientStats

    ghost predicate Valid()
      reads this
    {
      cache.Valid() && Balanced(stats)
    }

    constructor ()
      ensures Valid()
      ensures cache == Empty()
      ensures stats == ClientStats(0, 0, 0, 0)
    {
      stats := ClientStats(0, 0, 0, 0);
      cache := OMap([], map[]);
    }

    /** `callTool(toolName, functionName, args)`. The simulated backend
        call never fails, so the `catch` branch that counts a failure is
        never taken. */
    method CallTool(toolName: string, functionName: string, args: Json, settings: seq<Field>, now: int)
      returns (r: Result<Json, Failure>)
      requires Valid()
      modifies this
      ensures Valid()
      ensures CallStep(r, cache, stats) == ClientCall(old(cache), old(stats), settings, toolName, functionName, args, now)
    {
      ClientCallCounts(cache, stats, settings, toolName, functionName, args, now);
      var tools := FieldValue(settings, "tools");
      var toolConfig := PropOf(tools, toolName);
      if toolConfig.Throws? {
        return Err(TypeError("Cannot read properties of " + (if tools.Undefined? then "undefined" else "null")
          + " (reading '" + toolName + "')"));
      }
      if !Truthy(toolConfig.AsOption()) || !Truthy(Prop(toolConfig.v, "enabled").AsOption()) {
        return Err(NotEnabled(toolName));
      }
      var cacheKey := CacheKey(toolName, functionName, args);
      var caching := Truthy(FieldValue(settings, "enableCaching").AsOption());
      if caching && cache.Has(cacheKey) {
        var cached := cache.Get(cacheKey);
        if Fresh(cached, ToNumber(Prop(toolConfig.v, "cacheTimeout")), now) {
          stats := stats.(cacheHits := stats.cacheHits + 1);
          return Ok(cached.result);
        }
      }
      stats := stats.(totalCalls := stats.totalCalls + 1);
      var result := SimulatedResult(toolName, functionName, args, now);
      if caching {
        cache := cache.Set(cacheKey, ClientCacheEntry(result, now));
      }
      stats := stats.(successfulCalls := stats.successfulCalls + 1);
      r := Ok(result);
    }

    /** `getStats()`: a copy of the counters. */
    method GetStats() returns (r: ClientStats)
      ensures r == stats
    {
      r := stats;
    }

    /** `clearCache(toolName)`: drops exactly the entries of that tool, or
        every entry when no tool name is given. */
    method ClearCache(toolName: Option<string>)
      requires Valid()
      modifies this
      ensures Valid() && stats == old(stats)
      ensures forall k :: k in cache.table <==> k in old(cache.table) && Kept(k, toolName)
      ensures forall k :: k in cache.table ==> cache.table[k] == old(cache.table)[k]
    {
      if !TruthyString(toolName) {
        cache := Empty();
        return;
      }
      var prefix := toolName.value + ":";
      var keys := cache.keys;
      var i := 0;
      while i < |keys|
        invariant 0 <= i <= |keys| && Valid() && stats == old(stats)
        invariant forall k :: k in cache.table <==> k in old(cache.table) && !(k in keys[..i] && StartsWith(k, prefix))
        invariant forall k :: k in cache.table ==> cache.table[k] == old(cache.table)[k]
      {
        assert keys[..i + 1] == keys[..i] + [keys[i]];
        if StartsWith(keys[i], prefix) {
          cache := cache.Delete(keys[i]);
        }
        i := i + 1;
      }
      assert keys[..i] == keys;
    }
  }

  // ===========================================================================
  // ClientMcpIntegrationEngine.processUserInput

  /** What `processUserInput` returns when it does not return null. */
  datatype ClientOutcome = ClientOutcome(scene: ClientScene, results: seq<Json>, timestamp: int)

  /** The calls of the loop, one per tool in order, with the cache and the
      counters threaded through: the results of the calls that did not
      throw, and the final cache and counters. */
  function RunCalls(cache: OMap<ClientCacheEntry>, stats: ClientStats, settings: seq<Field>,
                    tools: seq<Suggestion>, args: Json, now: int): (r: (seq<Json>, OMap<ClientCacheEntry>, ClientStats))
    requires cache.Valid()
    ensures r.1.Valid()
    ensures |r.0| <= |tools|
    ensures r.2.failedCalls == stats.failedCalls
    ensures Balanced(stats) ==> Balanced(r.2)
  {
    if tools == [] then ([], cache, stats)
    else
      var (results, c, st) := RunCalls(cache, stats, settings, tools[..|tools| - 1], args, now);
      var step := ClientCall(c, st, settings, tools[|tools| - 1].name, "process", args, now);
      ClientCallCounts(c, st, settings, tools[|tools| - 1].name, "process", args, now);
      (if step.result.Ok? then results + [step.result.value] else results, step.cache, step.stats)
  }

  /** One more call: the loop over `tools[..i + 1]` is the loop over
      `tools[..i]` followed by the call of `tools[i]`. */
  lemma RunCallsStep(cache: OMap<ClientCacheEntry>, stats: ClientStats, settings: seq<Field>,
                     tools: seq<Suggestion>, i: nat, args: Json, now: int)
    requires cache.Valid() && i < |tools|
    ensures var (results, c, st) := RunCalls(cache, stats, settings, tools[..i], args, now);
      var step := ClientCall(c, st, settings, tools[i].name, "process", args, now);
      RunCalls(cache, stats, settings, tools[..i + 1], args, now)
        == (if step.result.Ok? then results + [step.result.value] else results, step.cache, step.stats)
  {
    assert tools[..i + 1][..i] == tools[..i];
  }

  /** `Math.ceil(x)`. */
  function Ceiling(x: real): int {
    -((-x).Floor)
  }

  /** How many times `for (let i = 0; i < Math.min(len, max); i++)` runs;
      a `max` that is not a number (NaN) stops it at once. */
  function Iterations(len: nat, max: Option<real>): (n: nat)
    ensures n <= len
  {
    if max.None? || max.value <= 0.0 then 0
    else if (len as real) <= max.value then len
    else Ceiling(max.value)
  }

  /** The loop runs for exactly the indexes below both bounds. */
  lemma IterationsSpec(len: nat, max: Option<real>, i: nat)
    ensures i < Iterations(len, max) <==> i < len && max.Some? && (i as real) < max.value
  {
    if max.Some? && max.value > 0.0 && !((len as real) <= max.value) {
      var f := (-max.value).Floor;
      assert (f as real) <= -max.value < (f as real) + 1.0;
    }
  }

  /** The arguments every tool gets: `{ input: userInput, context }`. */
  function ProcessArgs(userInput: string, context: Json): Json {
    JObj([Field("input", JStr(userInput)), Field("context", context)])
  }

  /** `processUserInput(userInput, context)` against the settings object:
      its result (None for null) and the tool manager's cache and counters
      afterwards. Any TypeError in the analysis is caught and gives null. */
  function Processed(defs: seq<(string, seq<Shape>)>, isEnabled: bool, cache: OMap<ClientCacheEntry>, stats: ClientStats, settings: seq<Field>,
                     userInput: string, context: Json, now: int): (r: (Option<ClientOutcome>, OMap<ClientCacheEntry>, ClientStats))
    requires cache.Valid()
  {
    if !isEnabled || !Truthy(FieldValue(settings, "enabled").AsOption())
       || !Truthy(FieldValue(settings, "autoTrigger").AsOption()) then (None, cache, stats)
    else if Prop(context, "chatHistory").Throws? then (None, cache, stats)
    else
      var scenes := ClientScenes(defs, userInput, settings);
      if scenes.Err? || scenes.value == [] then (None, cache, stats)
      else
        var best := scenes.value[0];
        var threshold := ToNumber(FieldValue(settings, "confidenceThreshold"));
        if threshold.Some? && best.confidence < threshold.value then (None, cache, stats)
        else
          var n := Iterations(|best.suggestedTools|, ToNumber(FieldValue(settings, "maxToolsPerGeneration")));
          var (results, c, st) := RunCalls(cache, stats, settings, best.suggestedTools[..n], ProcessArgs(userInput, context), now);
          (Some(ClientOutcome(best, results, now)), c, st)
  }

  /** `processUserInput` returns null exactly when the engine or the
      settings are switched off, the analysis throws or finds no scene, or
      the best scene is below the confidence threshold; then nothing is
      called. Otherwise the best scene is the first one reported, it has
      confidence 0.8, and at most `min(#suggested, maxToolsPerGeneration)`
      tools were called in order, with every result kept. */
  lemma ProcessedSpec(defs: seq<(string, seq<Shape>)>, isEnabled: bool, cache: OMap<ClientCacheEntry>, stats: ClientStats, settings: seq<Field>,
                      userInput: string, context: Json, now: int)
    requires cache.Valid()
    ensures var (r, c, st) := Processed(defs, isEnabled, cache, stats, settings, userInput, context, now);
      var scenes := ClientScenes(defs, userInput, settings);
      var threshold := ToNumber(FieldValue(settings, "confidenceThreshold"));
      && (r.None? <==>
            !isEnabled || !Truthy(FieldValue(settings, "enabled").AsOption())
            || !Truthy(FieldValue(settings, "autoTrigger").AsOption())
            || Prop(context, "chatHistory").Throws? || scenes.Err? || scenes.value == []
            || (threshold.Some? && scenes.value[0].confidence < threshold.value))
      && (r.None? ==> c == cache && st == stats)
      && (r.Some? ==>
            && r.value.scene == scenes.value[0] && r.value.scene.confidence == 0.8
            && |r.value.results| <= Iterations(|r.value.scene.suggestedTools|,
                                               ToNumber(FieldValue(settings, "maxToolsPerGeneration")))
            && r.value.timestamp == now
            && st.failedCalls == stats.failedCalls && (Balanced(stats) ==> Balanced(st)))
  {
    var scenes := ClientScenes(defs, userInput, settings);
    ClientScenesSpec(defs, userInput, settings);
    if scenes.Ok? && scenes.value != [] {
      assert scenes.value[0] in scenes.value;
    }
  }

  class ClientMcpIntegrationEngine {
    const sceneAnalyzer: ClientSceneAnalyzer
    const toolManager: ClientMcpToolManager
    var isEnabled: bool

    constructor ()
      ensures isEnabled && fresh(toolManager) && toolManager.Valid()
      ensures sceneAnalyzer.scenePatterns == ClientPatterns()
      ensures toolManager.cache == Empty() && toolManager.stats == ClientStats(0, 0, 0, 0)
    {
      sceneAnalyzer := new ClientSceneAnalyzer();
      toolManager := new ClientMcpToolManager();
      isEnabled := true;
    }

    /** `processUserInput(userInput, context)`: the outcome (None for
        null), with the tool manager's cache and counters updated by the
        calls made. */
    method ProcessUserInput(userInput: string, context: Json, settings: seq<Field>, now: int)
      returns (r: Option<ClientOutcome>)
      requires toolManager.Valid()
      modifies toolManager
      ensures toolManager.Valid()
      ensures (r, toolManager.cache, toolManager.stats)
        == Processed(sceneAnalyzer.scenePatterns, isEnabled, old(toolManager.cache), old(toolManager.stats), settings, userInput, context, now)
    {
      if !isEnabled || !Truthy(FieldValue(settings, "enabled").AsOption()) || !Truthy(FieldValue(settings, "autoTrigger").AsOption()) {
        return None;
      }
      if Prop(context, "chatHistory").Throws? {
        return None;
      }
      var scenes := sceneAnalyzer.AnalyzeScene(userInput, settings);
      if scenes.Err? || |scenes.value| == 0 {
        return None;
      }
      var bestScene := scenes.value[0];
      var threshold := ToNumber(FieldValue(settings, "confidenceThreshold"));
      if threshold.Some? && bestScene.confidence < threshold.value {
        return None;
      }
      var max := ToNumber(FieldValue(settings, "maxToolsPerGeneration"));
      var results := CallSuggested(bestScene.suggestedTools, max, ProcessArgs(userInput, context), settings, now);
      r := Some(ClientOutcome(bestScene, results, now));
    }

    /** The `for` loop of `processUserInput`: calls the first
        `Math.min(tools.length, max)` suggested tools in order and keeps the
        results of the calls that do not throw. */
    method CallSuggested(tools: seq<Suggestion>, max: Option<real>, args: Json, settings: seq<Field>, now: int)
      returns (results: seq<Json>)
      requires toolManager.Valid()
      modifies toolManager
      ensures toolManager.Valid()
      ensures (results, toolManager.cache, toolManager.stats)
        == RunCalls(old(toolManager.cache), old(toolManager.stats), settings, tools[..Iterations(|tools|, max)], args, now)
    {
      var n := Iterations(|tools|, max);
      ghost var cache0, stats0 := toolManager.cache, toolManager.stats;
      results := [];
      var i := 0;
      while i < n
        invariant 0 <= i <= n && toolManager.Valid()
        invariant (results, toolManager.cache, toolManager.stats) == RunCalls(cache0, stats0, settings, tools[..i], args, now)
      {
        results := CallNext(tools, i, args, settings, now, cache0, stats0, results);
        i := i + 1;
      }
    }

    /** One pass of that loop: calls `tools[i]` and keeps its result when
        the call does not throw. */
    method CallNext(tools: seq<Suggestion>, i: nat, args: Json, settings: seq<Field>, now: int,
                    ghost cache0: OMap<ClientCacheEntry>, ghost stats0: ClientStats, results: seq<Json>)
      returns (results': seq<Json>)
      requires toolManager.Valid() && cache0.Valid() && i < |tools|
      requires (results, toolManager.cache, toolManager.stats) == RunCalls(cache0, stats0, settings, tools[..i], args, now)
      modifies toolManager
      ensures toolManager.Valid()
      ensures (results', toolManager.cache, toolManager.stats) == RunCalls(cache0, stats0, settings, tools[..i + 1], args, now)
    {
      RunCallsStep(cache0, stats0, settings, tools, i, args, now);
      var result := toolManager.CallTool(tools[i].name, "process", args, settings, now);
      results' := if result.Ok? then results + [result.value] else results;
    }
  }
}
