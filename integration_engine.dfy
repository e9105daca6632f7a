/** The integration engine (`McpIntegrationEngine` in
    src/McpIntegrationEngine.js): on each generation it analyses the scene,
    picks the recommended tools, calls them through the tool manager as one
    batch, keeps the successful results with a summary for the prompt, and
    counts what happened.

    The analysis context, the clock, the network and whether the batch loses
    its race against the timeout are parameters; the locale rendering of a
    date is the parameter `formatTime`. */
module IntegrationEngine {
  import opened Common
  import opened JsonValues
  import opened Failures
  import opened OrderedMaps
  import opened ScenePatterns
  import opened SceneAnalysis
  import opened ToolManager

  // ===========================================================================
  // extractLocationFromText

  /** A regular expression `prefix(.+?)(?:e1|e2|…)`: a literal prefix, a lazily
      captured run of at least one character that is not a line terminator,
      then one of the endings. */
  datatype CapturePattern = CapturePattern(prefix: string, endings: seq<string>)

  /** `/在(.+?)(?:市|县|区|镇|村)/`, `/位于(.+?)(?:的|，|。)/`,
      `/(.+?)(?:街|路|大道|广场)/`, tried in this order. */
  function LocationPatterns(): seq<CapturePattern> {
    [ CapturePattern("在", ["市", "县", "区", "镇", "村"]),
      CapturePattern("位于", ["的", "，", "。"]),
      CapturePattern("", ["街", "路", "大道", "广场"]) ]
  }

  /** One of the endings occurs at `j`. */
  predicate EndsAt(s: string, endings: seq<string>, j: int) {
    exists q | 0 <= q < |endings| :: OccursAt(s, endings[q], j)
  }

  /** The pattern matches `s` with its prefix at `i` and the capture
      `s[i + |prefix|..j]`. */
  predicate CaptureAt(s: string, p: CapturePattern, i: int, j: int) {
    OccursAt(s, p.prefix, i) && i + |p.prefix| < j <= |s| && EndsAt(s, p.endings, j)
    && SameLine(s, i + |p.prefix|, j)
  }

  /** The lazy quantifier for a capture that starts at `c`: the ends `j`,
      `j + 1`, … are tried in turn until an ending follows, giving up at the
      first line terminator. */
  function LazyEnd(s: string, endings: seq<string>, c: nat, j: nat): (r: Option<nat>)
    requires c < j
    ensures r.Some? ==> j <= r.value <= |s|
    decreases |s| + 1 - j
  {
    if j > |s| then None
    else if IsLineTerminator(s[j - 1]) then None
    else if EndsAt(s, endings, j) then Some(j)
    else LazyEnd(s, endings, c, j + 1)
  }

  lemma {:induction false} LazyEndSpec(s: string, endings: seq<string>, c: nat, j: nat)
    requires c < j <= |s| + 1 && SameLine(s, c, j - 1)
    ensures var r := LazyEnd(s, endings, c, j);
      && (r.Some? ==> EndsAt(s, endings, r.value) && SameLine(s, c, r.value))
      && (forall k :: j <= k <= |s| && SameLine(s, c, k) && EndsAt(s, endings, k) ==> r.Some? && r.value <= k)
    decreases |s| + 1 - j
  {
    if j <= |s| {
      if IsLineTerminator(s[j - 1]) {
        forall k | j <= k <= |s|
          ensures !SameLine(s, c, k)
        {
          assert c <= j - 1 < k && IsLineTerminator(s[j - 1]);
        }
      } else {
        assert SameLine(s, c, j);
        if !EndsAt(s, endings, j) {
          LazyEndSpec(s, endings, c, j + 1);
        }
      }
    }
  }

  /** The end of the capture when the match is tried at start `i`: the
      prefix must occur there and the lazy capture must find an ending. */
  function EndFrom(s: string, p: CapturePattern, i: nat): (r: Option<nat>)
    ensures r.Some? ==> i + |p.prefix| < r.value <= |s|
  {
    if OccursAt(s, p.prefix, i) then LazyEnd(s, p.endings, i + |p.prefix|, i + |p.prefix| + 1) else None
  }

  /** A capture found at start `i` is a match, shorter than any other one
      starting there; when none is found, no match starts there. */
  lemma EndFromSpec(s: string, p: CapturePattern, i: nat)
    ensures var e := EndFrom(s, p, i);
      && (e.Some? ==> CaptureAt(s, p, i, e.value) && forall b :: CaptureAt(s, p, i, b) ==> e.value <= b)
      && (e.None? ==> forall b :: !CaptureAt(s, p, i, b))
  {
    var c := i + |p.prefix|;
    if OccursAt(s, p.prefix, i) {
      var e := LazyEnd(s, p.endings, c, c + 1);
      assert EndFrom(s, p, i) == e;
      LazyEndSpec(s, p.endings, c, c + 1);
      forall b | CaptureAt(s, p, i, b) ensures e.Some? && e.value <= b {
        assert c + 1 <= b <= |s| && SameLine(s, c, b) && EndsAt(s, p.endings, b);
      }
      if e.Some? {
        assert CaptureAt(s, p, i, e.value);
      }
    }
  }

  /** The regular expression engine from start position `i` on: the first
      start where the prefix occurs and the lazy capture finds an ending. */
  function MatchFrom(s: string, p: CapturePattern, i: nat): (r: Option<(nat, nat)>)
    ensures r.Some? ==> i <= r.value.0 && r.value.0 + |p.prefix| < r.value.1 <= |s|
    decreases |s| + 1 - i
  {
    if i > |s| then None
    else
      var e := EndFrom(s, p, i);
      if e.Some? then Some((i, e.value)) else MatchFrom(s, p, i + 1)
  }

  /** What the engine finds is a match, and at its start no shorter one
      exists. */
  lemma {:induction false} MatchFromSound(s: string, p: CapturePattern, i: nat)
    ensures var r := MatchFrom(s, p, i);
      r.Some? ==> (CaptureAt(s, p, r.value.0, r.value.1)
        && forall b :: CaptureAt(s, p, r.value.0, b) ==> r.value.1 <= b)
    decreases |s| + 1 - i
  {
    if i <= |s| {
      if EndFrom(s, p, i).None? {
        MatchFromSound(s, p, i + 1);
      } else {
        EndFromSpec(s, p, i);
      }
    }
  }

  /** The engine finds a match no later than any match that starts at `i`
      or after. */
  lemma {:induction false} MatchFromComplete(s: string, p: CapturePattern, i: nat, a: nat, b: nat)
    requires i <= a && CaptureAt(s, p, a, b)
    ensures MatchFrom(s, p, i).Some? && MatchFrom(s, p, i).value.0 <= a
    decreases |s| + 1 - i
  {
    assert i <= |s|;
    if a == i {
      EndFromSpec(s, p, i);
    } else if EndFrom(s, p, i).None? {
      MatchFromComplete(s, p, i + 1, a, b);
    }
  }

  /** `text.match(pattern)`. */
  function FirstMatch(s: string, p: CapturePattern): (r: Option<(nat, nat)>)
    ensures r.Some? ==> r.value.0 + |p.prefix| < r.value.1 <= |s|
  {
    MatchFrom(s, p, 0)
  }

  /** The pattern matches with its prefix at `a` and capture end `b`, and
      no match starts earlier or, starting at `a`, captures less. */
  ghost predicate Leftmost(s: string, p: CapturePattern, a: int, b: int) {
    CaptureAt(s, p, a, b) && forall a', b' :: CaptureAt(s, p, a', b') ==> a < a' || (a == a' && b <= b')
  }

  ghost predicate MatchesNowhere(s: string, p: CapturePattern) {
    forall a, b :: !CaptureAt(s, p, a, b)
  }

  /** The match found is the leftmost one and, at that start, the one with
      the shortest capture; there is none exactly when the pattern matches
      nowhere. */
  lemma FirstMatchSpec(s: string, p: CapturePattern)
    ensures var r := FirstMatch(s, p);
      && (r.Some? ==> Leftmost(s, p, r.value.0, r.value.1))
      && (r.None? <==> MatchesNowhere(s, p))
  {
    MatchFromSound(s, p, 0);
    forall a, b | CaptureAt(s, p, a, b)
      ensures FirstMatch(s, p).Some? && FirstMatch(s, p).value.0 <= a
    {
      MatchFromComplete(s, p, 0, a, b);
    }
  }

  /** The loop of `extractLocationFromText` over `pats`: the trimmed capture of
      the first pattern that matches. */
  function LocationIn(s: string, pats: seq<CapturePattern>): Option<string> {
    if pats == [] then None
    else
      var c := Captured(s, pats[0]);
      if c.Some? then c else LocationIn(s, pats[1..])
  }

  /** `match[1].trim()` for the match of one pattern, if any. */
  function Captured(s: string, p: CapturePattern): Option<string> {
    var m := FirstMatch(s, p);
    if m.Some? then Some(Trim(s[m.value.0 + |p.prefix|..m.value.1])) else None
  }

  /** Trying the patterns from `pats[k]` on: the capture of `pats[k]`, or
      the patterns after it. */
  lemma LocationInStep(s: string, pats: seq<CapturePattern>, k: nat)
    requires k < |pats|
    ensures LocationIn(s, pats[k..]) ==
      if Captured(s, pats[k]).Some? then Captured(s, pats[k]) else LocationIn(s, pats[k + 1..])
  {
    assert pats[k..][0] == pats[k];
    assert pats[k..][1..] == pats[k + 1..];
  }

  /** `loc` is the trimmed capture of the leftmost, shortest match of `p`. */
  ghost predicate CapturedBy(s: string, p: CapturePattern, a: int, b: int, loc: string) {
    Leftmost(s, p, a, b) && loc == Trim(s[a + |p.prefix|..b])
  }

  /** No pattern before `pats[k]` matches at all. */
  ghost predicate NoneBefore(s: string, pats: seq<CapturePattern>, k: int) {
    forall k' :: 0 <= k' < k && k' < |pats| ==> MatchesNowhere(s, pats[k'])
  }

  /** `loc` is what `pats[k]` captures, and it is the first pattern that
      matches. */
  ghost predicate FoundBy(s: string, pats: seq<CapturePattern>, k: int, a: int, b: int, loc: string) {
    0 <= k < |pats| && CapturedBy(s, pats[k], a, b, loc) && NoneBefore(s, pats, k)
  }

  /** A location is found exactly when some pattern matches ... */
  lemma {:induction false} LocationInNone(s: string, pats: seq<CapturePattern>)
    ensures LocationIn(s, pats).None? <==> forall k :: 0 <= k < |pats| ==> MatchesNowhere(s, pats[k])
  {
    if pats != [] {
      FirstMatchSpec(s, pats[0]);
      if FirstMatch(s, pats[0]).None? {
        var rest := pats[1..];
        LocationInNone(s, rest);
        assert LocationIn(s, pats) == LocationIn(s, rest);
        assert forall k :: 0 < k < |pats| ==> pats[k] == rest[k - 1];
      }
    }
  }

  /** ... and it is then the trimmed capture of the leftmost, shortest match
      of the first pattern that matches at all. */
  lemma {:induction false} LocationInFound(s: string, pats: seq<CapturePattern>)
    ensures LocationIn(s, pats).Some? ==> exists k, a, b :: FoundBy(s, pats, k, a, b, LocationIn(s, pats).value)
  {
    if pats != [] {
      if FirstMatch(s, pats[0]).Some? {
        FoundByFirst(s, pats);
      } else {
        FirstMatchSpec(s, pats[0]);
        var rest := pats[1..];
        LocationInFound(s, rest);
        assert LocationIn(s, pats) == LocationIn(s, rest);
        if LocationIn(s, rest).Some? {
          var loc := LocationIn(s, rest).value;
          var k, a, b :| FoundBy(s, rest, k, a, b, loc);
          FoundByShift(s, pats, k, a, b, loc);
        }
      }
    }
  }

  lemma FoundByFirst(s: string, pats: seq<CapturePattern>)
    requires pats != [] && FirstMatch(s, pats[0]).Some?
    ensures LocationIn(s, pats).Some?
    ensures exists k, a, b :: FoundBy(s, pats, k, a, b, LocationIn(s, pats).value)
  {
    var m := FirstMatch(s, pats[0]);
    var a, b := m.value.0, m.value.1;
    var loc := Trim(s[a + |pats[0].prefix|..b]);
    assert LocationIn(s, pats) == Some(loc) by {
      assert Captured(s, pats[0]) == Some(loc);
    }
    assert FoundBy(s, pats, 0, a, b, loc) by {
      FirstMatchSpec(s, pats[0]);
    }
  }

  lemma FoundByShift(s: string, pats: seq<CapturePattern>, k: int, a: int, b: int, loc: string)
    requires pats != [] && MatchesNowhere(s, pats[0]) && FoundBy(s, pats[1..], k, a, b, loc)
    ensures FoundBy(s, pats, k + 1, a, b, loc)
  {
    var rest := pats[1..];
    assert pats[k + 1] == rest[k];
    assert NoneBefore(s, pats, k + 1) by {
      forall k' | 0 <= k' < k + 1 && k' < |pats| ensures MatchesNowhere(s, pats[k']) {
        if k' > 0 {
          assert pats[k'] == rest[k' - 1];
        }
      }
    }
  }

  // ===========================================================================
  // selectToolFunction

  /** `functionMappings`: for each tool, its scene types and function names in
      the order the object literal lists them. */
  function FunctionMappings(): map<string, seq<(string, string)>> {
    map[
      "weather-api" := [("weather", "getCurrentWeather")],
      "web-search" := [("search", "searchWeb")],
      "conversation-memory" := [("memory", "searchMemory")],
      "rag-search" := [("search", "searchDocuments"), ("memory", "searchMemory")],
      "maps-api" := [("location", "searchPlaces")],
      "datetime-service" := [("time", "datetime-service")]
    ]
  }

  /** `toolFunctions[sceneType]` when it is truthy. */
  function MappedFor(entries: seq<(string, string)>, sceneType: string): Option<string> {
    if entries == [] then None
    else if entries[0].0 == sceneType then (if entries[0].1 != "" then Some(entries[0].1) else None)
    else MappedFor(entries[1..], sceneType)
  }

  /** `Object.values(toolFunctions)[0] || fallback`. */
  function FirstValue(entries: seq<(string, string)>, fallback: string): string {
    if entries != [] && entries[0].1 != "" then entries[0].1 else fallback
  }

  /** The loop over the detected scenes, then the fallback. */
  function FirstMapped(entries: seq<(string, string)>, scenes: seq<DetectedScene>, fallback: string): string {
    if scenes == [] then FirstValue(entries, fallback)
    else
      var f := MappedFor(entries, scenes[0].sceneType);
      if f.Some? then f.value else FirstMapped(entries, scenes[1..], fallback)
  }

  /** What `selectToolFunction(tool, detectedScenes)` returns. */
  function SelectFunction(name: string, scenes: seq<DetectedScene>): string {
    if name !in FunctionMappings() then name
    else FirstMapped(FunctionMappings()[name], scenes, name)
  }

  lemma {:induction false} FirstMappedSpec(entries: seq<(string, string)>, scenes: seq<DetectedScene>, fallback: string)
    ensures var r := FirstMapped(entries, scenes, fallback);
      && ((exists i :: 0 <= i < |scenes| && MappedFor(entries, scenes[i].sceneType).Some?) ==>
            exists i :: 0 <= i < |scenes| && MappedFor(entries, scenes[i].sceneType) == Some(r)
              && forall j :: 0 <= j < i ==> MappedFor(entries, scenes[j].sceneType).None?)
      && ((forall i :: 0 <= i < |scenes| ==> MappedFor(entries, scenes[i].sceneType).None?) ==>
            r == FirstValue(entries, fallback))
  {
    if scenes != [] && MappedFor(entries, scenes[0].sceneType).None? {
      var rest := scenes[1..];
      FirstMappedSpec(entries, rest, fallback);
      if exists i :: 0 <= i < |scenes| && MappedFor(entries, scenes[i].sceneType).Some? {
        var i :| 0 <= i < |scenes| && MappedFor(entries, scenes[i].sceneType).Some?;
        assert rest[i - 1] == scenes[i];
        var k :| 0 <= k < |rest| && MappedFor(entries, rest[k].sceneType) == Some(FirstMapped(entries, rest, fallback))
          && forall j :: 0 <= j < k ==> MappedFor(entries, rest[j].sceneType).None?;
        assert scenes[k + 1] == rest[k];
        forall j | 0 <= j < k + 1 ensures MappedFor(entries, scenes[j].sceneType).None? {
          if j > 0 {
            assert scenes[j] == rest[j - 1];
          }
        }
      } else {
        forall i | 0 <= i < |rest| ensures MappedFor(entries, rest[i].sceneType).None? {
          assert rest[i] == scenes[i + 1];
        }
      }
    }
  }

  /** An unmapped tool calls the function named like the tool; a mapped one
      the function of the first detected scene its mapping has, and without
      such a scene its first function. */
  lemma SelectFunctionSpec(name: string, scenes: seq<DetectedScene>)
    ensures name !in FunctionMappings() ==> SelectFunction(name, scenes) == name
    ensures name in FunctionMappings() ==> var entries := FunctionMappings()[name];
      && ((exists i :: 0 <= i < |scenes| && MappedFor(entries, scenes[i].sceneType).Some?) ==>
            exists i :: 0 <= i < |scenes| && MappedFor(entries, scenes[i].sceneType) == Some(SelectFunction(name, scenes))
              && forall j :: 0 <= j < i ==> MappedFor(entries, scenes[j].sceneType).None?)
      && ((forall i :: 0 <= i < |scenes| ==> MappedFor(entries, scenes[i].sceneType).None?) ==>
            SelectFunction(name, scenes) == entries[0].1)
  {
    if name in FunctionMappings() {
      FirstMappedSpec(FunctionMappings()[name], scenes, name);
    }
  }

  // ===========================================================================
  // buildToolArguments

  /** The character card fields `buildAnalysisContext` copies. */
  datatype Character = Character(name: Option<string>, description: Option<string>,
                                 personality: Option<string>, scenario: Option<string>)

  /** What `buildAnalysisContext()` gathers: the text being sent, the recent
      chat and the current character. */
  datatype GenerationContext = GenerationContext(userInput: Option<string>, chatHistory: Option<seq<ChatMessage>>,
                                                 character: Option<Character>)

  /** The same context as the scene analyser reads it. */
  function SceneContextOf(ctx: GenerationContext): SceneContext {
    SceneContext(ctx.userInput, ctx.chatHistory,
      if ctx.character.Some? then
        var c := ctx.character.value;
        Some(CharacterInfo(c.description, c.scenario, c.personality))
      else None)
  }

  /** `${x}` for a possibly undefined string. */
  function TextOf(x: Option<string>): string {
    if x.Some? then x.value else "undefined"
  }

  /** The chat messages as the JSON array `recentMessages`: each message is
      the message object itself, every property included. */
  function MessagesJson(ms: seq<ChatMessage>): (r: seq<Json>)
    ensures |r| == |ms|
    ensures forall i :: 0 <= i < |ms| ==> r[i].JObj? && forall k :: FieldValue(r[i].fields, k) == FieldValue(ms[i].fields, k)
  {
    seq(|ms|, i requires 0 <= i < |ms| => JObj(ms[i].fields))
  }

  /** Different message lists give different `recentMessages`: a message
      that differs in any property, `mes` or not, changes the request. */
  lemma MessagesJsonInjective(a: seq<ChatMessage>, b: seq<ChatMessage>)
    requires MessagesJson(a) == MessagesJson(b)
    ensures a == b
  {
    assert |a| == |b|;
    forall i | 0 <= i < |a|
      ensures a[i] == b[i]
    {
      assert MessagesJson(a)[i] == JObj(a[i].fields);
      assert MessagesJson(b)[i] == JObj(b[i].fields);
    }
  }

  /** The arguments every tool gets: the query, and the character's name and
      a context line when there is a character. */
  function CommonArguments(ctx: GenerationContext): (r: seq<Field>)
    ensures forall k :: FieldValue(r, k).Value? ==> k in {"query", "character", "context"}
  {
    var q := if TruthyString(ctx.userInput) then [Field("query", JStr(ctx.userInput.value))] else [];
    if ctx.character.None? then q
    else
      var c := ctx.character.value;
      var named := if c.name.Some? then SetField(q, "character", JStr(c.name.value)) else q;
      SetField(named, "context", JStr("Character: " + TextOf(c.name) + ". "
        + (if c.description.Some? then c.description.value else "")))
  }

  /** `extractLocationFromText(scenario)`: the location found, or `null`. */
  function LocationJson(scenario: string): Json {
    var l := LocationIn(scenario, LocationPatterns());
    if l.Some? then JStr(l.value) else JNull
  }

  /** `buildToolArguments(tool, context, analysis)` for the tool named `name`. */
  function ToolArguments(name: string, ctx: GenerationContext): (r: Json)
    ensures r.JObj?
    ensures FieldValue(r.fields, "query") ==
      if TruthyString(ctx.userInput) then Value(JStr(ctx.userInput.value)) else Undefined
  {
    var args := CommonArguments(ctx);
    if name == "weather-api" then
      if ctx.character.Some? && TruthyString(ctx.character.value.scenario) then
        JObj(SetField(args, "location", LocationJson(ctx.character.value.scenario.value)))
      else JObj(args)
    else if name == "web-search" then
      JObj(SetField(SetField(args, "maxResults", Int(3)), "safeSearch", JBool(true)))
    else if name == "conversation-memory" then
      if ctx.chatHistory.Some? then
        JObj(SetField(args, "recentMessages", JArr(MessagesJson(LastN(ctx.chatHistory.value, 5)))))
      else JObj(args)
    else if name == "rag-search" then
      var withMax := SetField(args, "maxResults", Int(5));
      if ctx.character.Some? then
        var d := ctx.character.value.description;
        JObj(if d.Some? then SetField(withMax, "context", JStr(d.value)) else RemoveField(withMax, "context"))
      else JObj(withMax)
    else JObj(args)
  }

  /** The search tool asks for three results with safe search on. */
  lemma WebSearchArguments(ctx: GenerationContext)
    ensures var fs := ToolArguments("web-search", ctx).fields;
      FieldValue(fs, "maxResults") == Value(Int(3)) && FieldValue(fs, "safeSearch") == Value(JBool(true))
  {
  }

  /** The document search asks for five results, and its context is the
      character's description rather than the common context line (none at
      all when the character has no description). */
  lemma RagSearchArguments(ctx: GenerationContext)
    ensures FieldValue(ToolArguments("rag-search", ctx).fields, "maxResults") == Value(Int(5))
    ensures ctx.character.Some? ==> (FieldValue(ToolArguments("rag-search", ctx).fields, "context") ==
      var d := ctx.character.value.description; if d.Some? then Value(JStr(d.value)) else Undefined)
  {
  }

  /** The memory tool gets the last five chat messages when there is a chat. */
  lemma MemoryArguments(ctx: GenerationContext)
    requires ctx.chatHistory.Some?
    ensures FieldValue(ToolArguments("conversation-memory", ctx).fields, "recentMessages")
      == Value(JArr(MessagesJson(LastN(ctx.chatHistory.value, 5))))
  {
  }

  /** Any other tool gets only the common arguments. */
  lemma OtherToolArguments(name: string, ctx: GenerationContext)
    requires name != "weather-api" && name != "web-search" && name != "conversation-memory" && name != "rag-search"
    ensures ToolArguments(name, ctx) == JObj(CommonArguments(ctx))
  {
  }

  /** The weather tool also gets the location found in the character's
      scenario, or null when none of the patterns matches. */
  lemma WeatherLocation(ctx: GenerationContext)
    requires ctx.character.Some? && TruthyString(ctx.character.value.scenario)
    ensures FieldValue(ToolArguments("weather-api", ctx).fields, "location") ==
      var l := LocationIn(ctx.character.value.scenario.value, LocationPatterns());
      if l.Some? then Value(JStr(l.value)) else Value(JNull)
  {
  }

  // ===========================================================================
  // Selecting and calling the tools

  /** `.filter(tool => tool.finalPriority > 0.3)`. */
  function AboveFloor(ts: seq<ToolCandidate>): (r: seq<ToolCandidate>)
    ensures |r| <= |ts|
    ensures forall t :: t in r <==> t in ts && t.finalPriority > 0.3
  {
    if ts == [] then []
    else (if ts[0].finalPriority > 0.3 then [ts[0]] else []) + AboveFloor(ts[1..])
  }

  /** `recommendedTools.slice(0, max).filter(...)`: never more than `max`
      tools, each among the first `max` and of final priority above 0.3. */
  function Selected(ts: seq<ToolCandidate>, max: int): (r: seq<ToolCandidate>)
    ensures 0 <= max ==> |r| <= max
    ensures forall t :: t in r <==> t in ts[..SliceEnd(|ts|, max)] && t.finalPriority > 0.3
  {
    AboveFloor(SliceTo(ts, max))
  }

  /** The call made for a selected tool. */
  function CallFor(t: ToolCandidate, analysis: AnalysisResult, ctx: GenerationContext, now: int): ToolCall {
    ToolCall(t.name, SelectFunction(t.name, analysis.detectedScenes), ToolArguments(t.name, ctx), now)
  }

  /** `toolsToCall.map(...)`. */
  function CallsFor(sel: seq<ToolCandidate>, analysis: AnalysisResult, ctx: GenerationContext, now: int): (r: seq<ToolCall>)
    ensures |r| == |sel|
  {
    seq(|sel|, i requires 0 <= i < |sel| => CallFor(sel[i], analysis, ctx, now))
  }

  /** What `Promise.allSettled` gives for a batch. */
  function Settlements(calls: seq<ToolCall>, outs: seq<(Result<Json, Failure>, bool)>, now: int): (r: seq<Settled>)
    requires |outs| == |calls|
    ensures |r| == |calls|
  {
    seq(|calls|, i requires 0 <= i < |calls| => Settle(calls[i], outs[i].0, now))
  }

  // ===========================================================================
  // processToolResults and generateResultSummary

  /** An element of `processedResults.toolResults`. */
  datatype ToolResult = ToolResult(toolName: string, fn: string, result: Option<Json>, executionTime: int)

  /** `processedResults`, which becomes `window.mcpEnhancement`. */
  datatype Enhancement = Enhancement(timestamp: int, sceneAnalysis: AnalysisResult,
                                     toolResults: seq<ToolResult>, summary: string)

  /** The entry kept for an outcome: only a fulfilled, successful call has one. */
  function SuccessOf(s: Settled): Option<ToolResult> {
    if s.Fulfilled? && s.report.success then
      Some(ToolResult(s.report.toolName, s.report.fn, s.report.result, s.report.executionTime))
    else None
  }

  function ReadOfNothing(): Failure {
    TypeError("Cannot read properties of undefined")
  }

  /** `result.result`. */
  function ResultLookup(t: ToolResult): Lookup {
    if t.result.Some? then Value(t.result.value) else Undefined
  }

  /** `if (list && list.length > 0) parts.push(before + list.length + after)`. */
  function CountPart(list: Lookup, before: string, after: string): Result<Option<string>, Failure> {
    if list.Throws? then Err(ReadOfNothing())
    else if !Truthy(list.AsOption()) then Ok(None)
    else
      var n := PropOf(list, "length");
      if Positive(n) then Ok(Some(before + DisplayLookup(n) + after)) else Ok(None)
  }

  /** One case of the `switch` in `generateResultSummary`: the part pushed,
      if any, or the TypeError a property read on a missing result throws. */
  function SummaryPart(t: ToolResult, formatTime: Json -> string): Result<Option<string>, Failure> {
    var res := ResultLookup(t);
    if t.toolName == "weather-api" then
      var w := PropOf(res, "weather");
      if w.Throws? then Err(ReadOfNothing())
      else if !Truthy(w.AsOption()) then Ok(None)
      else Ok(Some("当前天气：" + DisplayLookup(PropOf(w, "description"))
                   + "，温度" + DisplayLookup(PropOf(w, "temperature")) + "°C"))
    else if t.toolName == "web-search" then CountPart(PropOf(res, "results"), "搜索到", "条相关信息")
    else if t.toolName == "conversation-memory" then CountPart(PropOf(res, "memories"), "找到", "条相关记忆")
    else if t.toolName == "datetime-service" then
      var ct := PropOf(res, "currentTime");
      if ct.Throws? then Err(ReadOfNothing())
      else if !Truthy(ct.AsOption()) then Ok(None)
      else Ok(Some("当前时间：" + formatTime(ct.v)))
    else Ok(None)
  }

  /** The parts the loop of `generateResultSummary` collects over `ts`. */
  function SummaryParts(ts: seq<ToolResult>, formatTime: Json -> string): (r: Result<seq<string>, Failure>)
    ensures r.Ok? ==> |r.value| <= |ts|
    decreases |ts|
  {
    if ts == [] then Ok([])
    else
      match SummaryParts(ts[..|ts| - 1], formatTime)
      case Err(e) => Err(e)
      case Ok(ps) =>
        match SummaryPart(ts[|ts| - 1], formatTime)
        case Err(e) => Err(e)
        case Ok(p) => Ok(ps + (if p.Some? then [p.value] else []))
  }

  /** What `generateResultSummary(toolResults)` returns or throws. */
  function ResultSummary(ts: seq<ToolResult>, formatTime: Json -> string): Result<string, Failure> {
    if ts == [] then Ok("")
    else
      match SummaryParts(ts, formatTime)
      case Err(e) => Err(e)
      case Ok(ps) => Ok(Join(ps, "；"))
  }

  /** The summary loop succeeds exactly when every result's case does. */
  lemma {:induction false} SummaryPartsOk(ts: seq<ToolResult>, formatTime: Json -> string)
    ensures SummaryParts(ts, formatTime).Ok? <==> forall i :: 0 <= i < |ts| ==> SummaryPart(ts[i], formatTime).Ok?
    decreases |ts|
  {
    if ts != [] {
      var init := ts[..|ts| - 1];
      SummaryPartsOk(init, formatTime);
      if SummaryParts(ts, formatTime).Ok? {
        assert SummaryParts(init, formatTime).Ok? && SummaryPart(ts[|init|], formatTime).Ok?;
        forall i | 0 <= i < |ts| ensures SummaryPart(ts[i], formatTime).Ok? {
          if i < |init| {
            assert init[i] == ts[i];
          } else {
            assert i == |init|;
          }
        }
      } else if SummaryParts(init, formatTime).Err? {
        var i :| 0 <= i < |init| && SummaryPart(init[i], formatTime).Err?;
        assert init[i] == ts[i];
      } else {
        assert SummaryPart(ts[|init|], formatTime).Err?;
      }
    }
  }

  /** When the summary loop throws, it throws the error of the first result
      whose case throws. */
  lemma {:induction false} SummaryPartsFirstErr(ts: seq<ToolResult>, formatTime: Json -> string)
    ensures SummaryParts(ts, formatTime).Err? ==> exists i :: (0 <= i < |ts|
      && SummaryPart(ts[i], formatTime) == Err(SummaryParts(ts, formatTime).error)
      && forall j :: 0 <= j < i ==> SummaryPart(ts[j], formatTime).Ok?)
    decreases |ts|
  {
    if ts != [] {
      var n := |ts| - 1;
      var init := ts[..n];
      if SummaryParts(init, formatTime).Err? {
        SummaryPartsFirstErr(init, formatTime);
        var i :| 0 <= i < |init| && SummaryPart(init[i], formatTime) == Err(SummaryParts(init, formatTime).error)
          && forall j :: 0 <= j < i ==> SummaryPart(init[j], formatTime).Ok?;
        assert forall j :: 0 <= j <= i ==> init[j] == ts[j];
      } else {
        SummaryPartsOk(init, formatTime);
        assert forall j :: 0 <= j < n ==> init[j] == ts[j];
        assert SummaryParts(ts, formatTime).Err? ==> SummaryPart(ts[n], formatTime) == Err(SummaryParts(ts, formatTime).error);
      }
    }
  }

  /** Once a prefix of the loop throws, the whole loop throws that error. */
  lemma {:induction false} SummaryPartsPrefixErr(ts: seq<ToolResult>, i: nat, formatTime: Json -> string)
    requires i <= |ts| && SummaryParts(ts[..i], formatTime).Err?
    ensures SummaryParts(ts, formatTime) == SummaryParts(ts[..i], formatTime)
    decreases |ts| - i
  {
    if i < |ts| {
      var n := |ts| - 1;
      assert ts[..n][..i] == ts[..i];
      SummaryPartsPrefixErr(ts[..n], i, formatTime);
    } else {
      assert ts[..i] == ts;
    }
  }

  /** A list of `n` items adds the part `before + n + after` when `n > 0`
      and nothing when the list is empty. */
  lemma CountPartOfList(items: seq<Json>, before: string, after: string)
    ensures CountPart(Value(JArr(items)), before, after) ==
      if |items| > 0 then Ok(Some(before + NatToString(|items|) + after)) else Ok(None)
  {
    var n := |items|;
    var len := PropOf(Value(JArr(items)), "length");
    assert len == Value(JNum(n, 0));
    assert Truthy(Value(JArr(items)).AsOption());
    assert Display(Int(n)) == NatToString(n) by {
      assert Normalize(n, 0) == (n, 0);
    }
  }

  /** What `processToolResults(results, analysis)` returns or throws. */
  function Processed(results: seq<Settled>, analysis: AnalysisResult, now: int, formatTime: Json -> string): Result<Enhancement, Failure> {
    var kept := Collect(results, SuccessOf);
    match ResultSummary(kept, formatTime)
    case Err(e) => Err(e)
    case Ok(summary) => Ok(Enhancement(now, analysis, kept, summary))
  }

  // ===========================================================================
  // formatMcpEnhancement

  function Header(): string {
    "\n[系统信息 - 来自MCP工具]\n"
  }

  function Footer(): string {
    "[/系统信息]\n"
  }

  /** The line written for one tool result. */
  function ToolLine(t: ToolResult): string {
    "- " + t.toolName + ": " + (if t.result.Some? then Stringify(t.result.value) else "undefined") + "\n"
  }

  function ToolLines(ts: seq<ToolResult>): string
    decreases |ts|
  {
    if ts == [] then "" else ToolLines(ts[..|ts| - 1]) + ToolLine(ts[|ts| - 1])
  }

  /** What `formatMcpEnhancement(enhancement)` returns; `None` stands for null. */
  function EnhancementText(e: Option<Enhancement>): Option<string> {
    if e.None? || e.value.toolResults == [] then None
    else Some(Header() + ToolLines(e.value.toolResults)
              + (if e.value.summary != "" then "摘要：" + e.value.summary + "\n" else "")
              + Footer())
  }

  predicate EndsWith(s: string, suffix: string) {
    |suffix| <= |s| && s[|s| - |suffix|..] == suffix
  }

  lemma ContainsInfix(p: string, x: string, q: string, w: string)
    requires Contains(x, w)
    ensures Contains(p + x + q, w)
  {
    var i :| 0 <= i <= |x| && OccursAt(x, w, i);
    assert (p + x + q)[|p| + i..|p| + i + |w|] == x[i..i + |w|];
    assert OccursAt(p + x + q, w, |p| + i);
  }

  lemma {:induction false} ToolLinesContain(ts: seq<ToolResult>, i: nat)
    requires i < |ts|
    ensures Contains(ToolLines(ts), ToolLine(ts[i]))
    decreases |ts|
  {
    var n := |ts| - 1;
    var init := ToolLines(ts[..n]);
    if i < n {
      ToolLinesContain(ts[..n], i);
      assert ts[..n][i] == ts[i];
      ContainsInfix("", init, ToolLine(ts[n]), ToolLine(ts[i]));
      assert "" + init + ToolLine(ts[n]) == ToolLines(ts);
    } else {
      assert ToolLines(ts)[|init|..|init| + |ToolLine(ts[i])|] == ToolLine(ts[i]);
      assert OccursAt(ToolLines(ts), ToolLine(ts[i]), |init|);
    }
  }

  /** The block is null exactly when there are no tool results; otherwise it
      opens with the header, closes with the footer, and has every result's
      line. */
  lemma EnhancementTextSpec(e: Option<Enhancement>)
    ensures EnhancementText(e).None? <==> e.None? || e.value.toolResults == []
    ensures EnhancementText(e).Some? ==>
      var text := EnhancementText(e).value;
      && StartsWith(text, Header()) && EndsWith(text, Footer())
      && forall i :: 0 <= i < |e.value.toolResults| ==> Contains(text, ToolLine(e.value.toolResults[i]))
  {
    if EnhancementText(e).Some? {
      var ts := e.value.toolResults;
      var lines := ToolLines(ts);
      var tail := (if e.value.summary != "" then "摘要：" + e.value.summary + "\n" else "") + Footer();
      var text := EnhancementText(e).value;
      assert text == Header() + lines + tail;
      assert text[..|Header()|] == Header();
      assert text[|text| - |Footer()|..] == Footer();
      forall i | 0 <= i < |ts| ensures Contains(text, ToolLine(ts[i])) {
        ToolLinesContain(ts, i);
        ContainsInfix(Header(), lines, tail, ToolLine(ts[i]));
      }
    }
  }

  // ===========================================================================
  // Statistics

  datatype Stats = Stats(totalGenerations: nat, toolCallsTriggered: nat, successfulCalls: nat, failedCalls: nat)

  /** Every triggered batch is counted at least once among the outcomes: it
      either fails as a whole or counts each of its (at least one) calls. */
  predicate Sound(st: Stats) {
    st.toolCallsTriggered <= st.successfulCalls + st.failedCalls
  }

  predicate Succeeded(s: Settled) {
    s.Fulfilled? && s.report.success
  }

  /** The number of fulfilled, successful outcomes. */
  function SuccessCount(results: seq<Settled>): (n: nat)
    ensures n <= |results|
    ensures n == |results| <==> forall i :: 0 <= i < |results| ==> Succeeded(results[i])
    decreases |results|
  {
    if results == [] then 0
    else
      var n := |results| - 1;
      assert forall i :: 0 <= i < n ==> results[..n][i] == results[i];
      SuccessCount(results[..n]) + (if Succeeded(results[n]) then 1 else 0)
  }

  /** The counters after `updateStats(results)`: every outcome is counted
      once, as a success or as a failure. */
  function Tallied(st: Stats, results: seq<Settled>): (r: Stats)
    ensures r.successfulCalls + r.failedCalls == st.successfulCalls + st.failedCalls + |results|
    ensures r.successfulCalls >= st.successfulCalls && r.failedCalls >= st.failedCalls
    ensures r.totalGenerations == st.totalGenerations && r.toolCallsTriggered == st.toolCallsTriggered
  {
    var n := SuccessCount(results);
    st.(successfulCalls := st.successfulCalls + n, failedCalls := st.failedCalls + (|results| - n))
  }

  /** `x.toFixed(2)` for `x = 100 · num / den`, in hundredths: the quotient
      rounded half up. */
  function Hundredths(num: nat, den: nat): nat
    requires den > 0
  {
    (20000 * num + den) / (2 * den)
  }

  /** A number of hundredths written with two decimals and a percent sign. */
  function Percent(h: nat): string {
    NatToString(h / 100) + "." + PadDigits(h % 100, 2) + "%"
  }

  /** `successRate` as `getStats` computes it: successful calls divided by
      the number of batches. */
  function SuccessRateAsWritten(st: Stats): string {
    if st.toolCallsTriggered > 0 then Percent(Hundredths(st.successfulCalls, st.toolCallsTriggered)) else "0%"
  }

  /** The rate the field's name promises: successful calls divided by all
      counted outcomes. */
  function SuccessRate(st: Stats): string {
    var total := st.successfulCalls + st.failedCalls;
    if total > 0 then Percent(Hundredths(st.successfulCalls, total)) else "0%"
  }

  /** One batch of three successful calls, from fresh counters, reports a
      success rate of 300%. */
  lemma SuccessRateAsWrittenExceedsHundred(results: seq<Settled>)
    requires |results| == 3 && forall i :: 0 <= i < 3 ==> Succeeded(results[i])
    ensures var st := Tallied(Stats(1, 1, 0, 0), results);
      Sound(st) && SuccessRateAsWritten(st) == "300.00%"
  {
    var st := Tallied(Stats(1, 1, 0, 0), results);
    assert st == Stats(1, 1, 3, 0);
    assert Hundredths(3, 1) == 30000;
    assert NatToString(300) == "300" by {
      assert NatToString(3) == "3";
      assert NatToString(30) == "30";
    }
    assert PadDigits(0, 2) == "00";
  }

  /** The quotient is `q` when `a` lies in `[q·b, (q+1)·b)`. */
  lemma DivIs(a: nat, b: nat, q: nat)
    requires b > 0 && q * b <= a < (q + 1) * b
    ensures a / b == q
  {
    var d := a / b;
    assert a == d * b + a % b && 0 <= a % b < b;
    if d < q {
      MulMono(d + 1, q, b);
    } else if d > q {
      MulMono(q + 1, d, b);
    }
  }

  lemma MulMono(x: nat, y: nat, b: nat)
    requires x <= y
    ensures x * b <= y * b
  {
    var k := y - x;
    assert y * b == x * b + k * b;
  }

  /** The quotient is at most `c` when `a` is below `(c+1)·b`. */
  lemma DivAtMost(a: nat, b: nat, c: nat)
    requires b > 0 && a < (c + 1) * b
    ensures a / b <= c
  {
    var q := a / b;
    assert q * b <= a;
  }

  lemma PercentHundred()
    ensures Percent(10000) == "100.00%"
  {
    assert NatToString(1) == "1";
    assert NatToString(10) == "10";
    assert NatToString(100) == "100";
    assert PadDigits(0, 2) == "00";
  }

  /** The corrected rate never exceeds 100%, and is exactly 100.00% when no
      call failed. */
  lemma SuccessRateAtMostHundred(st: Stats)
    ensures SuccessRate(st) == "0%" || exists h :: h <= 10000 && SuccessRate(st) == Percent(h)
    ensures st.successfulCalls > 0 && st.failedCalls == 0 ==> SuccessRate(st) == "100.00%"
  {
    var total := st.successfulCalls + st.failedCalls;
    if total > 0 {
      var h := Hundredths(st.successfulCalls, total);
      var a := 20000 * st.successfulCalls + total;
      assert a < 10001 * (2 * total);
      DivAtMost(a, 2 * total, 10000);
      if st.failedCalls == 0 {
        assert a == 10000 * (2 * total) + total;
        DivIs(a, 2 * total, 10000);
        PercentHundred();
      }
    }
  }

  /** The report `getStats()` returns. */
  datatype StatsReport = StatsReport(stats: Stats, successRate: string)

  // ===========================================================================
  // Settings

  datatype Settings = Settings(autoTrigger: bool, maxToolsPerGeneration: int, timeoutMs: int,
                               confidenceThreshold: real, enableCaching: bool, debugMode: bool)

  function DefaultSettings(): Settings {
    Settings(true, 3, 8000, 0.4, true, false)
  }

  /** The keys an `updateSettings(newSettings)` argument sets. */
  datatype SettingsPatch = SettingsPatch(autoTrigger: Option<bool>, maxToolsPerGeneration: Option<int>,
                                         timeoutMs: Option<int>, confidenceThreshold: Option<real>,
                                         enableCaching: Option<bool>, debugMode: Option<bool>)

  /** `{ ...settings, ...patch }`. */
  function Patched(s: Settings, p: SettingsPatch): (r: Settings)
    ensures p.autoTrigger.Some? ==> r.autoTrigger == p.autoTrigger.value
    ensures p.autoTrigger.None? ==> r.autoTrigger == s.autoTrigger
    ensures p.maxToolsPerGeneration.Some? ==> r.maxToolsPerGeneration == p.maxToolsPerGeneration.value
    ensures p.maxToolsPerGeneration.None? ==> r.maxToolsPerGeneration == s.maxToolsPerGeneration
    ensures p.confidenceThreshold.Some? ==> r.confidenceThreshold == p.confidenceThreshold.value
    ensures p.confidenceThreshold.None? ==> r.confidenceThreshold == s.confidenceThreshold
  {
    Settings(p.autoTrigger.GetOr(s.autoTrigger), p.maxToolsPerGeneration.GetOr(s.maxToolsPerGeneration),
             p.timeoutMs.GetOr(s.timeoutMs), p.confidenceThreshold.GetOr(s.confidenceThreshold),
             p.enableCaching.GetOr(s.enableCaching), p.debugMode.GetOr(s.debugMode))
  }

  /** Applying the same settings twice is applying them once. */
  lemma PatchedIdempotent(s: Settings, p: SettingsPatch)
    ensures Patched(Patched(s, p), p) == Patched(s, p)
  {
  }

  /** What one batch of `executeToolCalls` over the selected tools `sel`
      leaves behind, from the counters `st0`, the published results `enh0`
      and the cache `cache0`: the cache holds the outcome of every call, the
      batch is counted, and then either the timer fired or processing threw
      and one failed call is counted, or the results are published and
      tallied. */
  ghost predicate BatchDone(st0: Stats, enh0: Option<Enhancement>, cache0: OMap<CacheEntry>,
                      st: Stats, enh: Option<Enhancement>, cache: OMap<CacheEntry>,
                      config: OMap<seq<Field>>, tools: OMap<ToolInfo>, sel: seq<ToolCandidate>,
                      analysis: AnalysisResult, ctx: GenerationContext, env: Env,
                      timedOut: bool, formatTime: Json -> string)
  {
    var now := env.host.now;
    var calls := CallsFor(sel, analysis, ctx, now);
    var outs := BatchOutcomes(cache0, config, tools, calls, env);
    var results := Settlements(calls, outs, now);
    var processed := Processed(results, analysis, now, formatTime);
    var counted := st0.(toolCallsTriggered := st0.toolCallsTriggered + 1);
    && cache0.Valid()
    && cache == StoreAll(cache0, calls, outs, now)
    && (timedOut || processed.Err? ==> st == counted.(failedCalls := counted.failedCalls + 1) && enh == enh0)
    && (!timedOut && processed.Ok? ==> st == Tallied(counted, results) && enh == Some(processed.value))
  }

  // ===========================================================================
  // The engine object

  class McpIntegrationEngine {
    const sceneAnalyzer: SceneAnalyzer
    const toolManager: McpToolManager
    var isEnabled: bool
    var settings: Settings
    var stats: Stats
    /** `window.mcpEnhancement`: the last processed results. */
    var mcpEnhancement: Option<Enhancement>

    ghost predicate Valid()
      reads this, toolManager
    {
      toolManager.Valid() && Sound(stats)
    }

    constructor ()
      ensures Valid() && fresh(toolManager) && !isEnabled && mcpEnhancement.None?
      ensures settings == DefaultSettings() && stats == Stats(0, 0, 0, 0)
      ensures sceneAnalyzer.scenePatterns == Catalog() && sceneAnalyzer.toolMappings == ToolMappings()
      ensures !toolManager.isInitialized && toolManager.tools == Empty() && toolManager.cache == Empty()
    {
      sceneAnalyzer := new SceneAnalyzer();
      toolManager := new McpToolManager();
      isEnabled := false;
      settings := DefaultSettings();
      stats := Stats(0, 0, 0, 0);
      mcpEnhancement := None;
    }

    /** `initialize()`: the tool manager's initialisation lets no error
        escape, so the engine always ends up enabled. */
    method Initialize(fetch: ConfigFetch, env: Env)
      requires Valid()
      modifies this, toolManager
      ensures Valid() && isEnabled && toolManager.isInitialized
      ensures settings == old(settings) && stats == old(stats) && mcpEnhancement == old(mcpEnhancement)
      ensures old(toolManager.isInitialized) ==> (toolManager.config == old(toolManager.config)
        && toolManager.tools == old(toolManager.tools) && toolManager.cache == old(toolManager.cache))
      ensures !old(toolManager.isInitialized) ==> (toolManager.config == Loaded(old(toolManager.config), fetch)
        && toolManager.cache == old(toolManager.cache))
    {
      toolManager.Initialize(fetch, env);
      isEnabled := true;
    }

    /** `selectToolFunction(tool, detectedScenes)`. */
    method SelectToolFunction(tool: ToolCandidate, detectedScenes: seq<DetectedScene>) returns (fn: string)
      ensures fn == SelectFunction(tool.name, detectedScenes)
    {
      var mappings := FunctionMappings();
      if tool.name !in mappings {
        return tool.name;
      }
      var toolFunctions := mappings[tool.name];
      var k := 0;
      while k < |detectedScenes|
        invariant 0 <= k <= |detectedScenes|
        invariant SelectFunction(tool.name, detectedScenes) == FirstMapped(toolFunctions, detectedScenes[k..], tool.name)
      {
        var f := MappedFor(toolFunctions, detectedScenes[k].sceneType);
        if f.Some? {
          return f.value;
        }
        assert detectedScenes[k..][1..] == detectedScenes[k + 1..];
        k := k + 1;
      }
      fn := FirstValue(toolFunctions, tool.name);
    }

    /** `extractLocationFromText(text)`; `None` stands for null. */
    method ExtractLocationFromText(text: string) returns (location: Option<string>)
      ensures location == LocationIn(text, LocationPatterns())
    {
      location := MatchLocation(text, LocationPatterns());
    }

    /** The loop of `extractLocationFromText` over its patterns. */
    method MatchLocation(text: string, patterns: seq<CapturePattern>) returns (location: Option<string>)
      ensures location == LocationIn(text, patterns)
    {
      var k := 0;
      while k < |patterns|
        invariant 0 <= k <= |patterns|
        invariant LocationIn(text, patterns) == LocationIn(text, patterns[k..])
      {
        var m := FirstMatch(text, patterns[k]);
        LocationInStep(text, patterns, k);
        if m.Some? {
          return Some(Trim(text[m.value.0 + |patterns[k].prefix|..m.value.1]));
        }
        k := k + 1;
      }
      location := None;
    }

    /** `generateResultSummary(toolResults)`: the summary, or what it throws. */
    method GenerateResultSummary(toolResults: seq<ToolResult>, formatTime: Json -> string) returns (r: Result<string, Failure>)
      ensures r == ResultSummary(toolResults, formatTime)
    {
      if |toolResults| == 0 {
        return Ok("");
      }
      var parts: seq<string> := [];
      var i := 0;
      while i < |toolResults|
        invariant 0 <= i <= |toolResults|
        invariant SummaryParts(toolResults[..i], formatTime) == Ok(parts)
      {
        assert toolResults[..i + 1][..i] == toolResults[..i];
        var part := SummaryPart(toolResults[i], formatTime);
        if part.Err? {
          SummaryPartsPrefixErr(toolResults, i + 1, formatTime);
          return Err(part.error);
        }
        if part.value.Some? {
          parts := parts + [part.value.value];
        } else {
          assert parts + [] == parts;
        }
        i := i + 1;
      }
      assert toolResults[..i] == toolResults;
      r := Ok(Join(parts, "；"));
    }

    /** `processToolResults(results, analysis)`: the fulfilled, successful
        outcomes in order, and their summary. */
    method ProcessToolResults(results: seq<Settled>, analysis: AnalysisResult, now: int, formatTime: Json -> string)
      returns (r: Result<Enhancement, Failure>)
      ensures r == Processed(results, analysis, now, formatTime)
      ensures r.Ok? ==> forall t :: t in r.value.toolResults <==> exists i :: 0 <= i < |results| && SuccessOf(results[i]) == Some(t)
    {
      var toolResults: seq<ToolResult> := [];
      var i := 0;
      while i < |results|
        invariant 0 <= i <= |results|
        invariant toolResults == Collect(results[..i], SuccessOf)
      {
        assert results[..i + 1][..i] == results[..i];
        var kept := SuccessOf(results[i]);
        if kept.Some? {
          toolResults := toolResults + [kept.value];
        } else {
          assert toolResults + [] == toolResults;
        }
        i := i + 1;
      }
      assert results[..i] == results;
      CollectSpec(results, SuccessOf);
      var summary := GenerateResultSummary(toolResults, formatTime);
      if summary.Err? {
        return Err(summary.error);
      }
      r := Ok(Enhancement(now, analysis, toolResults, summary.value));
    }

    /** `formatMcpEnhancement(enhancement)`. */
    method FormatMcpEnhancement(enhancement: Option<Enhancement>) returns (r: Option<string>)
      ensures r == EnhancementText(enhancement)
    {
      if enhancement.None? || |enhancement.value.toolResults| == 0 {
        return None;
      }
      var ts := enhancement.value.toolResults;
      var formattedContent := Header();
      var i := 0;
      while i < |ts|
        invariant 0 <= i <= |ts|
        invariant formattedContent == Header() + ToolLines(ts[..i])
      {
        assert ts[..i + 1][..i] == ts[..i];
        formattedContent := formattedContent + ToolLine(ts[i]);
        i := i + 1;
      }
      assert ts[..i] == ts;
      var lines := formattedContent;
      var summary := enhancement.value.summary;
      if summary != "" {
        formattedContent := formattedContent + "摘要：" + summary + "\n";
        assert formattedContent == lines + ("摘要：" + summary + "\n");
      } else {
        assert formattedContent == lines + "";
      }
      formattedContent := formattedContent + Footer();
      r := Some(formattedContent);
    }

    /** `onBeforeCombinePrompts(data)`: the `mcpContext` it sets, if any. */
    function PromptContext(data: Option<Enhancement>): (r: Option<string>)
      reads this
      ensures r.Some? <==> isEnabled && data.Some? && data.value.toolResults != []
    {
      if !isEnabled || data.None? then None else EnhancementText(data)
    }

    /** `onGenerationStarted(type, params, isDryRun)`, the context being what
        `buildAnalysisContext` gathered: nothing happens for a disabled
        engine, a dry run, automatic triggering switched off or a quiet or
        impersonating generation; otherwise the generation is counted and
        the tools are called when the analysis is confident enough. */
    method OnGenerationStarted(generationType: string, isDryRun: bool, ctx: GenerationContext, env: Env,
                               timedOut: bool, formatTime: Json -> string)
      requires Valid()
      modifies this, toolManager
      ensures Valid()
      ensures isEnabled == old(isEnabled) && settings == old(settings)
      ensures toolManager.tools == old(toolManager.tools) && toolManager.config == old(toolManager.config)
      ensures !isEnabled || isDryRun || !settings.autoTrigger || generationType in ["quiet", "impersonate"] ==>
        stats == old(stats) && mcpEnhancement == old(mcpEnhancement) && toolManager.cache == old(toolManager.cache)
      ensures !(!isEnabled || isDryRun || !settings.autoTrigger || generationType in ["quiet", "impersonate"]) ==>
        var analysis := AnalysisOf(sceneAnalyzer.scenePatterns, sceneAnalyzer.toolMappings, SceneContextOf(ctx));
        var sel := Selected(analysis.recommendedTools, settings.maxToolsPerGeneration);
        var triggered := analysis.confidence >= settings.confidenceThreshold && sel != [];
        var generated := old(stats).(totalGenerations := old(stats).totalGenerations + 1);
        && stats.totalGenerations == old(stats).totalGenerations + 1
        && stats.toolCallsTriggered == old(stats).toolCallsTriggered + (if triggered then 1 else 0)
        && (!triggered ==> (stats == generated
              && mcpEnhancement == old(mcpEnhancement) && toolManager.cache == old(toolManager.cache)))
        && (triggered ==>
              BatchDone(generated, old(mcpEnhancement), old(toolManager.cache), stats, mcpEnhancement, toolManager.cache,
                        toolManager.config, toolManager.tools, sel, analysis, ctx, env, timedOut, formatTime))
    {
      if !isEnabled || isDryRun || !settings.autoTrigger {
        return;
      }
      if generationType in ["quiet", "impersonate"] {
        return;
      }
      stats := stats.(totalGenerations := stats.totalGenerations + 1);
      var analysis := sceneAnalyzer.AnalyzeScene(SceneContextOf(ctx));
      if analysis.confidence >= settings.confidenceThreshold {
        ExecuteToolCalls(analysis, ctx, env, timedOut, formatTime);
      }
    }

    /** `executeToolCalls(analysis, context)`: the first
        `maxToolsPerGeneration` recommended tools above priority 0.3 are
        called as one batch. `timedOut` says whether the `timeoutMs` timer
        fires before the batch settles; the batch then still completes (and
        fills the cache) but counts as one failed call. */
    method ExecuteToolCalls(analysis: AnalysisResult, ctx: GenerationContext, env: Env,
                            timedOut: bool, formatTime: Json -> string)
      requires Valid()
      modifies this, toolManager
      ensures Valid()
      ensures isEnabled == old(isEnabled) && settings == old(settings)
      ensures toolManager.tools == old(toolManager.tools) && toolManager.config == old(toolManager.config)
      ensures Selected(analysis.recommendedTools, settings.maxToolsPerGeneration) == [] ==>
        stats == old(stats) && mcpEnhancement == old(mcpEnhancement) && toolManager.cache == old(toolManager.cache)
      ensures var sel := Selected(analysis.recommendedTools, settings.maxToolsPerGeneration);
        sel != [] ==>
        BatchDone(old(stats), old(mcpEnhancement), old(toolManager.cache), stats, mcpEnhancement, toolManager.cache,
                  toolManager.config, toolManager.tools, sel, analysis, ctx, env, timedOut, formatTime)
    {
      if |analysis.recommendedTools| == 0 {
        return;
      }
      var toolsToCall := Selected(analysis.recommendedTools, settings.maxToolsPerGeneration);
      if |toolsToCall| == 0 {
        return;
      }
      stats := stats.(toolCallsTriggered := stats.toolCallsTriggered + 1);
      var now := env.host.now;
      var toolCalls := CallsFor(toolsToCall, analysis, ctx, now);
      ghost var outs := BatchOutcomes(toolManager.cache, toolManager.config, toolManager.tools, toolCalls, env);
      var results := toolManager.CallTools(toolCalls, env);
      assert results == Settlements(toolCalls, outs, now);
      Conclude(results, analysis, now, timedOut, formatTime);
    }

    /** The rest of `executeToolCalls` once the batch has settled: a timeout
        or an error thrown while processing counts one failed call; otherwise
        the results are published and counted. */
    method Conclude(results: seq<Settled>, analysis: AnalysisResult, now: int, timedOut: bool, formatTime: Json -> string)
      requires results != [] && stats.toolCallsTriggered <= stats.successfulCalls + stats.failedCalls + 1
      modifies this
      ensures Sound(stats)
      ensures isEnabled == old(isEnabled) && settings == old(settings)
      ensures var processed := Processed(results, analysis, now, formatTime);
        && (timedOut || processed.Err? ==>
              stats == old(stats).(failedCalls := old(stats).failedCalls + 1) && mcpEnhancement == old(mcpEnhancement))
        && (!timedOut && processed.Ok? ==>
              stats == Tallied(old(stats), results) && mcpEnhancement == Some(processed.value))
    {
      if timedOut {
        stats := stats.(failedCalls := stats.failedCalls + 1);
        return;
      }
      var processedResults := ProcessToolResults(results, analysis, now, formatTime);
      if processedResults.Err? {
        stats := stats.(failedCalls := stats.failedCalls + 1);
        return;
      }
      mcpEnhancement := Some(processedResults.value);
      UpdateStats(results);
    }

    /** `updateStats(results)`. */
    method UpdateStats(results: seq<Settled>)
      modifies this
      ensures stats == Tallied(old(stats), results)
      ensures isEnabled == old(isEnabled) && settings == old(settings) && mcpEnhancement == old(mcpEnhancement)
    {
      var i := 0;
      ghost var start := stats;
      while i < |results|
        invariant 0 <= i <= |results|
        invariant stats == Tallied(start, results[..i])
        invariant isEnabled == old(isEnabled) && settings == old(settings) && mcpEnhancement == old(mcpEnhancement)
      {
        assert results[..i + 1][..i] == results[..i];
        if Succeeded(results[i]) {
          stats := stats.(successfulCalls := stats.successfulCalls + 1);
        } else {
          stats := stats.(failedCalls := stats.failedCalls + 1);
        }
        i := i + 1;
      }
      assert results[..i] == results;
    }

    /** `getStats()`, with the corrected success rate. */
    method GetStats() returns (r: StatsReport)
      ensures r.stats == stats && r.successRate == SuccessRate(stats)
    {
      r := StatsReport(stats, SuccessRate(stats));
    }

    /** `updateSettings(newSettings)`. */
    method UpdateSettings(newSettings: SettingsPatch)
      modifies this
      ensures settings == Patched(old(settings), newSettings)
      ensures isEnabled == old(isEnabled) && stats == old(stats) && mcpEnhancement == old(mcpEnhancement)
    {
      settings := Patched(settings, newSettings);
    }

    /** `setEnabled(enabled)`. */
    method SetEnabled(enabled: bool)
      modifies this
      ensures isEnabled == enabled
      ensures settings == old(settings) && stats == old(stats) && mcpEnhancement == old(mcpEnhancement)
    {
      isEnabled := enabled;
    }

    /** `cleanup()`: the tool manager disconnects and the engine is disabled. */
    method Cleanup()
      requires Valid()
      modifies this, toolManager, toolManager.Connections()
      ensures Valid() && !isEnabled
      ensures !toolManager.isInitialized && toolManager.tools == Empty() && toolManager.cache == Empty()
      ensures forall c :: c in old(toolManager.Connections()) ==> !c.isConnected
      ensures settings == old(settings) && stats == old(stats) && mcpEnhancement == old(mcpEnhancement)
    {
      toolManager.Disconnect();
      isEnabled := false;
    }
  }
}
