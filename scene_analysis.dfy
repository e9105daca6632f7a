/** The scene classifier of src/SceneAnalyzer.js: scores a text against every
    scene of the catalogue, merges the scenes found in the user input, the
    recent chat history and the character card, and turns them into a short,
    ranked list of tool recommendations.

    Confidences are exact rationals (`real`); see the README for what that
    leaves out. */
module SceneAnalysis {
  import opened Common
  import opened OrderedMaps
  import opened JsonValues
  import opened ScenePatterns

  datatype MatchKind = Keyword | PatternMatch | ContextClue

  /** One piece of evidence: `{ type, value }`. */
  datatype SceneMatch = SceneMatch(kind: MatchKind, value: string)

  datatype Source = TextAnalysis | CharacterPersonality

  /** `{ type, confidence, matches, source }`. */
  datatype DetectedScene = DetectedScene(sceneType: string, confidence: real, matches: seq<SceneMatch>, source: Source)

  function Conf(s: DetectedScene): real {
    s.confidence
  }

  /** `Math.min(x, 1.0)`. */
  function Min1(x: real): real {
    if x < 1.0 then x else 1.0
  }

  /** `Math.max(a, b)`. */
  function Max(a: real, b: real): real {
    if a >= b then a else b
  }

  // ===========================================================================
  // analyzeText

  /** The words of `words` occurring in `text`, in list order, as evidence of
      the given kind. */
  function WordHits(words: seq<string>, text: string, kind: MatchKind): seq<SceneMatch> {
    if words == [] then []
    else
      var w := words[|words| - 1];
      WordHits(words[..|words| - 1], text, kind) + (if Contains(text, w) then [SceneMatch(kind, w)] else [])
  }

  /** The patterns that match `text`, in list order, recorded by their source. */
  function PatternHits(patterns: seq<Regex>, text: string): seq<SceneMatch> {
    if patterns == [] then []
    else
      var p := patterns[|patterns| - 1];
      PatternHits(patterns[..|patterns| - 1], text) + (if Matches(p.shape, text) then [SceneMatch(PatternMatch, p.source)] else [])
  }

  /** Evidence of a kind is exactly the words that occur. */
  lemma {:induction false} WordHitsSpec(words: seq<string>, text: string, kind: MatchKind)
    ensures forall m :: m in WordHits(words, text, kind) <==> m.kind == kind && m.value in words && Contains(text, m.value)
    ensures |WordHits(words, text, kind)| <= |words|
  {
    if words != [] {
      var init := words[..|words| - 1];
      WordHitsSpec(init, text, kind);
      assert words == init + [words[|words| - 1]];
    }
  }

  /** Pattern evidence is exactly the sources of the patterns that match. */
  lemma {:induction false} PatternHitsSpec(patterns: seq<Regex>, text: string)
    ensures forall m :: m in PatternHits(patterns, text) <==>
      m.kind == PatternMatch && exists p :: p in patterns && p.source == m.value && Matches(p.shape, text)
  {
    if patterns != [] {
      var init := patterns[..|patterns| - 1];
      PatternHitsSpec(init, text);
      assert patterns == init + [patterns[|patterns| - 1]];
    }
  }

  /** The three lists of evidence for one scene, in the order they are found. */
  function Evidence(def: SceneDef, text: string): (seq<SceneMatch>, seq<SceneMatch>, seq<SceneMatch>) {
    var lower := ToLower(text);
    (WordHits(def.keywords, lower, Keyword), PatternHits(def.patterns, text), WordHits(def.contextClues, lower, ContextClue))
  }

  /** 0.3 per keyword, 0.5 per pattern and 0.2 per context clue. */
  function Score(keywords: nat, patterns: nat, clues: nat): real {
    0.3 * (keywords as real) + 0.5 * (patterns as real) + 0.2 * (clues as real)
  }

  /** The scene `def` reports for `text`, when its score passes the threshold. */
  function SceneOf(def: SceneDef, text: string): Option<DetectedScene> {
    var (kw, pt, cl) := Evidence(def, text);
    var raw := Score(|kw|, |pt|, |cl|);
    if raw > 0.3 then Some(DetectedScene(def.sceneType, Min1(raw), kw + pt + cl, TextAnalysis)) else None
  }

  /** `SceneOf` for a fixed text, as a function of the catalogue entry. */
  function SceneFor(text: string): SceneDef -> Option<DetectedScene> {
    d => SceneOf(d, text)
  }

  /** `analyzeText(text)` over the catalogue `catalog`: nothing for a missing
      or empty text, otherwise the passing scenes in catalogue order. */
  function TextScenes(catalog: seq<SceneDef>, text: Option<string>): seq<DetectedScene> {
    if text.None? || text.value == "" then [] else Collect(catalog, SceneFor(text.value))
  }

  /** The threshold `> 0.3` admits a scene exactly when it has two keywords,
      or a pattern, or two context clues, or a keyword and a context clue:
      a single keyword alone, or a single clue alone, is not enough. */
  lemma ScoreThreshold(keywords: nat, patterns: nat, clues: nat)
    ensures Score(keywords, patterns, clues) > 0.3 <==>
      keywords >= 2 || patterns >= 1 || clues >= 2 || (keywords >= 1 && clues >= 1)
  {
    if patterns == 0 && keywords <= 1 && clues <= 1 && !(keywords >= 1 && clues >= 1) {
      assert Score(keywords, patterns, clues) <= 0.3;
    }
  }

  /** What a reported scene holds: its catalogue type, a confidence in
      (0.3, 1], the `text_analysis` source, and evidence explained by the
      catalogue in both directions. */
  lemma SceneOfSpec(def: SceneDef, text: string)
    ensures var (kw, pt, cl) := Evidence(def, text);
      SceneOf(def, text).Some? <==> (|kw| >= 2 || |pt| >= 1 || |cl| >= 2 || (|kw| >= 1 && |cl| >= 1))
    ensures SceneOf(def, text).Some? ==>
      var s := SceneOf(def, text).value;
      && s.sceneType == def.sceneType && s.source == TextAnalysis
      && 0.3 < s.confidence <= 1.0
      && (forall m :: m in s.matches && m.kind == Keyword <==> m.value in def.keywords && Contains(ToLower(text), m.value) && m == SceneMatch(Keyword, m.value))
      && (forall m :: m in s.matches && m.kind == ContextClue <==> m.value in def.contextClues && Contains(ToLower(text), m.value) && m == SceneMatch(ContextClue, m.value))
      && (forall m :: m in s.matches && m.kind == PatternMatch <==>
            m == SceneMatch(PatternMatch, m.value) && exists p :: p in def.patterns && p.source == m.value && Matches(p.shape, text))
  {
    var (kw, pt, cl) := Evidence(def, text);
    ScoreThreshold(|kw|, |pt|, |cl|);
    WordHitsSpec(def.keywords, ToLower(text), Keyword);
    WordHitsSpec(def.contextClues, ToLower(text), ContextClue);
    PatternHitsSpec(def.patterns, text);
  }

  /** `analyzeText` reports at most one scene per catalogue entry, and a
      scene exactly when some catalogue entry passes on that text; each has a
      confidence in (0.3, 1] and the `text_analysis` source. */
  lemma TextScenesSpec(catalog: seq<SceneDef>, text: Option<string>)
    ensures |TextScenes(catalog, text)| <= |catalog|
    ensures text.Some? && text.value != "" ==>
      forall s :: s in TextScenes(catalog, text) <==> exists d :: 0 <= d < |catalog| && SceneOf(catalog[d], text.value) == Some(s)
    ensures forall s :: s in TextScenes(catalog, text) ==> 0.3 < s.confidence <= 1.0 && s.source == TextAnalysis
  {
    if text.Some? && text.value != "" {
      CollectSpec(catalog, SceneFor(text.value));
      forall s | s in TextScenes(catalog, text) ensures 0.3 < s.confidence <= 1.0 && s.source == TextAnalysis {
        var d :| 0 <= d < |catalog| && SceneFor(text.value)(catalog[d]) == Some(s);
        SceneOfSpec(catalog[d], text.value);
      }
    }
  }

  // ===========================================================================
  // analyzeCharacterContext

  /** The character card's text fields; `None` for a falsy or missing one. */
  datatype CharacterInfo = CharacterInfo(description: Option<string>, scenario: Option<string>, personality: Option<string>)

  /** `{ ...scene, source: "character_personality", confidence: c * 0.7 }`. */
  function Personality(s: DetectedScene): DetectedScene {
    s.(source := CharacterPersonality, confidence := s.confidence * 0.7)
  }

  function PersonalityAll(ss: seq<DetectedScene>): (r: seq<DetectedScene>)
    ensures |r| == |ss| && forall i :: 0 <= i < |ss| ==> r[i] == Personality(ss[i])
  {
    seq(|ss|, i requires 0 <= i < |ss| => Personality(ss[i]))
  }

  function CharacterScenes(catalog: seq<SceneDef>, info: CharacterInfo): seq<DetectedScene> {
    TextScenes(catalog, info.description) + TextScenes(catalog, info.scenario)
    + PersonalityAll(TextScenes(catalog, info.personality))
  }

  /** The card's description and scenario count in full, its personality at
      70%: personality scenes have confidence in (0.21, 0.7], the others in
      (0.3, 1]. */
  lemma CharacterScenesBounds(catalog: seq<SceneDef>, info: CharacterInfo)
    ensures forall s :: s in CharacterScenes(catalog, info) ==>
      (s.source == CharacterPersonality ==> 0.21 < s.confidence <= 0.7)
      && (s.source == TextAnalysis ==> 0.3 < s.confidence <= 1.0)
      && 0.21 < s.confidence <= 1.0
    ensures forall s :: s in PersonalityAll(TextScenes(catalog, info.personality)) <==>
      exists t :: t in TextScenes(catalog, info.personality) && s == Personality(t)
  {
    TextScenesSpec(catalog, info.description);
    TextScenesSpec(catalog, info.scenario);
    TextScenesSpec(catalog, info.personality);
    var p := TextScenes(catalog, info.personality);
    forall s | s in PersonalityAll(p) ensures exists t :: t in p && s == Personality(t) {
      var i :| 0 <= i < |p| && PersonalityAll(p)[i] == s;
      assert p[i] in p;
    }
    forall t | t in p ensures Personality(t) in PersonalityAll(p) {
      var i :| 0 <= i < |p| && p[i] == t;
      assert PersonalityAll(p)[i] == Personality(t);
    }
  }

  // ===========================================================================
  // deduplicateAndRank

  /** One step of the merge: a new type is inserted as is; a known type keeps
      its entry (and so its source and position), raises its confidence to
      the maximum and appends the new evidence. */
  function MergeStep(m: OMap<DetectedScene>, scene: DetectedScene): (r: OMap<DetectedScene>)
    requires m.Valid()
    ensures r.Valid()
  {
    if m.Has(scene.sceneType) then
      var existing := m.Get(scene.sceneType);
      m.Set(scene.sceneType, existing.(confidence := Max(existing.confidence, scene.confidence),
                                       matches := existing.matches + scene.matches))
    else
      m.Set(scene.sceneType, scene)
  }

  function Merged(scenes: seq<DetectedScene>): (m: OMap<DetectedScene>)
    ensures m.Valid()
  {
    if scenes == [] then Empty() else MergeStep(Merged(scenes[..|scenes| - 1]), scenes[|scenes| - 1])
  }

  function Ranked(scenes: seq<DetectedScene>): seq<DetectedScene> {
    SortDesc(Merged(scenes).Values(), Conf)
  }

  // An independent description of the merged entry of one type.

  /** The scenes of type `t`, in input order. */
  function OfType(scenes: seq<DetectedScene>, t: string): (r: seq<DetectedScene>)
    ensures forall s :: s in r <==> s in scenes && s.sceneType == t
  {
    if scenes == [] then []
    else
      var last := scenes[|scenes| - 1];
      assert scenes == scenes[..|scenes| - 1] + [last];
      OfType(scenes[..|scenes| - 1], t) + (if last.sceneType == t then [last] else [])
  }

  function MaxConf(os: seq<DetectedScene>): real
    requires os != []
  {
    if |os| == 1 then os[0].confidence else Max(MaxConf(os[..|os| - 1]), os[|os| - 1].confidence)
  }

  function AllMatches(os: seq<DetectedScene>): seq<SceneMatch> {
    if os == [] then [] else AllMatches(os[..|os| - 1]) + os[|os| - 1].matches
  }

  /** The first scene of a group, with the largest confidence of the group and
      the evidence of the whole group concatenated. */
  function Combined(os: seq<DetectedScene>): DetectedScene
    requires os != []
  {
    os[0].(confidence := MaxConf(os), matches := AllMatches(os))
  }

  /** MaxConf is the maximum of the group. */
  lemma {:induction false} MaxConfIsMax(os: seq<DetectedScene>)
    requires os != []
    ensures forall s :: s in os ==> s.confidence <= MaxConf(os)
    ensures exists s :: s in os && s.confidence == MaxConf(os)
  {
    if |os| > 1 {
      var init := os[..|os| - 1];
      MaxConfIsMax(init);
      assert os == init + [os[|os| - 1]];
      var w :| w in init && w.confidence == MaxConf(init);
      if w.confidence >= os[|os| - 1].confidence {
        assert w in os && w.confidence == MaxConf(os);
      } else {
        assert os[|os| - 1] in os && os[|os| - 1].confidence == MaxConf(os);
      }
    } else {
      assert os[0] in os;
    }
  }

  lemma CombinedSnoc(os: seq<DetectedScene>, x: DetectedScene)
    requires os != []
    ensures Combined(os + [x]) == Combined(os).(confidence := Max(MaxConf(os), x.confidence), matches := AllMatches(os) + x.matches)
  {
    var s := os + [x];
    assert s[..|s| - 1] == os;
  }

  /** The merge holds an entry for type `t` exactly when the input has a
      scene of that type, and the entry is the combination of those scenes. */
  lemma {:induction false} MergedAt(scenes: seq<DetectedScene>, t: string)
    ensures Merged(scenes).Has(t) <==> OfType(scenes, t) != []
    ensures Merged(scenes).Has(t) ==> Merged(scenes).Get(t) == Combined(OfType(scenes, t))
  {
    if scenes != [] {
      var init := scenes[..|scenes| - 1];
      var x := scenes[|scenes| - 1];
      MergedAt(init, t);
      MergedStepAt(Merged(init), OfType(init, t), x, t);
      assert OfType(scenes, t) == OfType(init, t) + (if x.sceneType == t then [x] else []);
    }
  }

  /** One merge step preserves the correspondence for type `t`. */
  lemma MergedStepAt(m: OMap<DetectedScene>, os: seq<DetectedScene>, x: DetectedScene, t: string)
    requires m.Valid()
    requires m.Has(t) <==> os != []
    requires m.Has(t) ==> m.Get(t) == Combined(os)
    ensures var os' := os + (if x.sceneType == t then [x] else []);
      && (MergeStep(m, x).Has(t) <==> os' != [])
      && (MergeStep(m, x).Has(t) ==> MergeStep(m, x).Get(t) == Combined(os'))
  {
    if t == x.sceneType {
      if m.Has(t) {
        CombinedSnoc(os, x);
      } else {
        assert os + [x] == [x];
        assert AllMatches([x]) == AllMatches([]) + x.matches;
      }
    } else {
      assert os + [] == os;
    }
  }

  lemma MergedSpec(scenes: seq<DetectedScene>)
    ensures forall t :: Merged(scenes).Has(t) <==> OfType(scenes, t) != []
    ensures forall t :: Merged(scenes).Has(t) ==> Merged(scenes).Get(t) == Combined(OfType(scenes, t))
  {
    forall t ensures Merged(scenes).Has(t) <==> OfType(scenes, t) != []
      ensures Merged(scenes).Has(t) ==> Merged(scenes).Get(t) == Combined(OfType(scenes, t))
    {
      MergedAt(scenes, t);
    }
  }

  /** Every merged entry is keyed by its own type. */
  lemma MergedTypes(scenes: seq<DetectedScene>)
    ensures forall t :: Merged(scenes).Has(t) ==> Merged(scenes).Get(t).sceneType == t
  {
    MergedSpec(scenes);
    forall t | Merged(scenes).Has(t) ensures Merged(scenes).Get(t).sceneType == t {
      var os := OfType(scenes, t);
      assert os[0] in os;
    }
  }

  function SceneTypeOf(s: DetectedScene): string {
    s.sceneType
  }

  /** The merged values carry distinct types. */
  lemma MergedValuesDistinct(scenes: seq<DetectedScene>)
    ensures var vs := Merged(scenes).Values();
      forall i, j :: 0 <= i < j < |vs| ==> SceneTypeOf(vs[i]) != SceneTypeOf(vs[j])
  {
    var m := Merged(scenes);
    var vs := m.Values();
    MergedTypes(scenes);
    forall i, j | 0 <= i < j < |vs| ensures SceneTypeOf(vs[i]) != SceneTypeOf(vs[j]) {
      assert m.keys[i] in m.keys && m.keys[j] in m.keys;
      assert m.Has(m.keys[i]) && m.Has(m.keys[j]);
      assert vs[i] == m.Get(m.keys[i]) && vs[j] == m.Get(m.keys[j]);
    }
  }

  /** Ranking reorders the merged values. */
  lemma RankedPermutes(scenes: seq<DetectedScene>)
    ensures SortedDesc(Ranked(scenes), Conf)
    ensures multiset(Ranked(scenes)) == multiset(Merged(scenes).Values())
    ensures forall e :: e in Ranked(scenes) <==> e in Merged(scenes).Values()
  {
    SortDescProps(Merged(scenes).Values(), Conf);
    PermutationMembers(Merged(scenes).Values(), Ranked(scenes));
  }

  lemma RankedEntries(scenes: seq<DetectedScene>)
    ensures forall e :: e in Ranked(scenes) ==> OfType(scenes, e.sceneType) != [] && e == Combined(OfType(scenes, e.sceneType))
  {
    var m := Merged(scenes);
    var vs := m.Values();
    RankedPermutes(scenes);
    MergedTypes(scenes);
    forall e | e in Ranked(scenes) ensures OfType(scenes, e.sceneType) != [] && e == Combined(OfType(scenes, e.sceneType)) {
      var a :| 0 <= a < |vs| && vs[a] == e;
      assert m.keys[a] in m.keys;
      MergedAt(scenes, m.keys[a]);
    }
  }

  lemma RankedCovers(scenes: seq<DetectedScene>)
    ensures forall s :: s in scenes ==> exists e :: e in Ranked(scenes) && e.sceneType == s.sceneType
  {
    var m := Merged(scenes);
    var vs := m.Values();
    RankedPermutes(scenes);
    MergedTypes(scenes);
    forall s | s in scenes ensures exists e :: e in Ranked(scenes) && e.sceneType == s.sceneType {
      assert s in OfType(scenes, s.sceneType);
      MergedAt(scenes, s.sceneType);
      var a :| 0 <= a < |m.keys| && m.keys[a] == s.sceneType;
      assert vs[a] in vs;
    }
  }

  /** `deduplicateAndRank(scenes)`: one scene per type present in the input
      (and only those), each the combination of its type's scenes — the first
      one's source, the largest confidence and all the evidence — ordered by
      non-increasing confidence. */
  lemma RankedSpec(scenes: seq<DetectedScene>)
    ensures var r := Ranked(scenes);
      && SortedDesc(r, Conf)
      && (forall i, j :: 0 <= i < j < |r| ==> r[i].sceneType != r[j].sceneType)
      && (forall e :: e in r ==> OfType(scenes, e.sceneType) != [] && e == Combined(OfType(scenes, e.sceneType)))
      && (forall s :: s in scenes ==> exists e :: e in r && e.sceneType == s.sceneType)
  {
    RankedPermutes(scenes);
    MergedValuesDistinct(scenes);
    DistinctKeysPermutation(Merged(scenes).Values(), Ranked(scenes), SceneTypeOf);
    RankedEntries(scenes);
    RankedCovers(scenes);
  }

  /** Merging keeps every confidence inside any interval holding all inputs. */
  lemma RankedConfidences(scenes: seq<DetectedScene>, lo: real, hi: real)
    requires forall s :: s in scenes ==> lo < s.confidence <= hi
    ensures forall e :: e in Ranked(scenes) ==> lo < e.confidence <= hi
  {
    RankedSpec(scenes);
    forall e | e in Ranked(scenes) ensures lo < e.confidence <= hi {
      var os := OfType(scenes, e.sceneType);
      MaxConfIsMax(os);
    }
  }

  // ===========================================================================
  // getToolsForScene

  /** `{ ...tool, sceneType, sceneConfidence, finalPriority }`. */
  datatype ToolCandidate = ToolCandidate(name: string, priority: real, reason: string,
                                         sceneType: string, sceneConfidence: real, finalPriority: real)

  function FinalPriority(t: ToolCandidate): real {
    t.finalPriority
  }

  function Candidate(t: ToolSuggestion, scene: DetectedScene): ToolCandidate {
    ToolCandidate(t.name, t.priority, t.reason, scene.sceneType, scene.confidence, t.priority * scene.confidence)
  }

  /** Weighting by a factor in (0, 1] never increases a non-negative value. */
  lemma WeightBound(p: real, c: real)
    requires 0.0 < p <= 1.0 && 0.0 <= c
    ensures 0.0 <= p * c <= c
  {
    assert c - p * c == (1.0 - p) * c;
  }

  /** `getToolsForScene(scene)` with the tool table `table`: nothing for a
      type without an entry; otherwise the entry's tools in order, each
      tagged with the scene and weighted by the scene's confidence. */
  function GetToolsForScene(table: map<string, seq<ToolSuggestion>>, scene: DetectedScene): (r: seq<ToolCandidate>)
    ensures scene.sceneType !in table ==> r == []
    ensures scene.sceneType in table ==> |r| == |table[scene.sceneType]|
    ensures forall i :: 0 <= i < |r| ==>
      && scene.sceneType in table
      && r[i].name == table[scene.sceneType][i].name && r[i].priority == table[scene.sceneType][i].priority
      && r[i].reason == table[scene.sceneType][i].reason
      && r[i].sceneType == scene.sceneType && r[i].sceneConfidence == scene.confidence
      && r[i].finalPriority == r[i].priority * scene.confidence
  {
    var ts := if scene.sceneType in table then table[scene.sceneType] else [];
    seq(|ts|, i requires 0 <= i < |ts| => Candidate(ts[i], scene))
  }

  /** With priorities in (0, 1], no candidate's final priority exceeds the
      confidence of the scene it comes from. */
  lemma ToolsForSceneBound(table: map<string, seq<ToolSuggestion>>, scene: DetectedScene)
    requires PrioritiesInRange(table) && 0.0 <= scene.confidence
    ensures forall c :: c in GetToolsForScene(table, scene) ==> 0.0 <= c.finalPriority <= scene.confidence
  {
    var r := GetToolsForScene(table, scene);
    forall c | c in r ensures 0.0 <= c.finalPriority <= scene.confidence {
      var i :| 0 <= i < |r| && r[i] == c;
      var p := table[scene.sceneType][i].priority;
      assert c.finalPriority == p * scene.confidence && 0.0 < p <= 1.0;
      WeightBound(p, scene.confidence);
    }
  }

  // ===========================================================================
  // prioritizeTools

  /** One step of the de-duplication: a later tool replaces the kept one only
      when its final priority is strictly larger; the name keeps its place. */
  function PickStep(m: OMap<ToolCandidate>, tool: ToolCandidate): (r: OMap<ToolCandidate>)
    requires m.Valid()
    ensures r.Valid()
  {
    if m.Has(tool.name) then
      (if tool.finalPriority > m.Get(tool.name).finalPriority then m.Set(tool.name, tool) else m)
    else m.Set(tool.name, tool)
  }

  function Picked(tools: seq<ToolCandidate>): (m: OMap<ToolCandidate>)
    ensures m.Valid()
  {
    if tools == [] then Empty() else PickStep(Picked(tools[..|tools| - 1]), tools[|tools| - 1])
  }

  function Prioritized(tools: seq<ToolCandidate>): seq<ToolCandidate> {
    SliceTo(SortDesc(Picked(tools).Values(), FinalPriority), 5)
  }

  /** The candidates with the given name, in input order. */
  function OfName(tools: seq<ToolCandidate>, n: string): (r: seq<ToolCandidate>)
    ensures forall t :: t in r <==> t in tools && t.name == n
  {
    if tools == [] then []
    else
      var last := tools[|tools| - 1];
      assert tools == tools[..|tools| - 1] + [last];
      OfName(tools[..|tools| - 1], n) + (if last.name == n then [last] else [])
  }

  /** The candidate a left-to-right scan with strict `>` keeps. */
  function Best(os: seq<ToolCandidate>): ToolCandidate
    requires os != []
  {
    if |os| == 1 then os[0]
    else
      var b := Best(os[..|os| - 1]);
      if os[|os| - 1].finalPriority > b.finalPriority then os[|os| - 1] else b
  }

  /** No candidate has a larger final priority than Best. */
  lemma {:induction false} BestIsMax(os: seq<ToolCandidate>)
    requires os != []
    ensures forall t :: t in os ==> t.finalPriority <= Best(os).finalPriority
  {
    if |os| > 1 {
      var n := |os| - 1;
      var init := os[..n];
      BestIsMax(init);
      assert os == init + [os[n]];
    }
  }

  /** Best is the earliest candidate of largest final priority. */
  lemma {:induction false} BestIsFirst(os: seq<ToolCandidate>)
    requires os != []
    ensures exists i :: 0 <= i < |os| && os[i] == Best(os) && forall j :: 0 <= j < i ==> os[j].finalPriority < Best(os).finalPriority
  {
    if |os| == 1 {
      assert os[0] == Best(os);
    } else {
      var n := |os| - 1;
      var init := os[..n];
      BestIsFirst(init);
      var i :| 0 <= i < |init| && init[i] == Best(init) && forall j :: 0 <= j < i ==> init[j].finalPriority < Best(init).finalPriority;
      if os[n].finalPriority > Best(init).finalPriority {
        BestIsMax(init);
        forall j | 0 <= j < n ensures os[j].finalPriority < Best(os).finalPriority {
          assert os[j] == init[j] && init[j] in init;
        }
        assert os[n] == Best(os);
      } else {
        forall j | 0 <= j < i ensures os[j].finalPriority < Best(os).finalPriority {
          assert os[j] == init[j];
        }
        assert os[i] == Best(os);
      }
    }
  }

  /** The de-duplication keeps an entry for name `n` exactly when some
      candidate has that name, and the entry is the best of them. */
  lemma {:induction false} PickedAt(tools: seq<ToolCandidate>, n: string)
    ensures Picked(tools).Has(n) <==> OfName(tools, n) != []
    ensures Picked(tools).Has(n) ==> Picked(tools).Get(n) == Best(OfName(tools, n))
  {
    if tools != [] {
      var init := tools[..|tools| - 1];
      var x := tools[|tools| - 1];
      PickedAt(init, n);
      PickStepAt(Picked(init), OfName(init, n), x, n);
      assert OfName(tools, n) == OfName(init, n) + (if x.name == n then [x] else []);
    }
  }

  /** One de-duplication step preserves the correspondence for name `n`. */
  lemma PickStepAt(m: OMap<ToolCandidate>, os: seq<ToolCandidate>, x: ToolCandidate, n: string)
    requires m.Valid()
    requires m.Has(n) <==> os != []
    requires m.Has(n) ==> m.Get(n) == Best(os)
    ensures var os' := os + (if x.name == n then [x] else []);
      && (PickStep(m, x).Has(n) <==> os' != [])
      && (PickStep(m, x).Has(n) ==> PickStep(m, x).Get(n) == Best(os'))
  {
    if n == x.name {
      if m.Has(n) {
        var s := os + [x];
        assert s[..|s| - 1] == os;
      } else {
        assert os + [x] == [x];
      }
    } else {
      assert os + [] == os;
    }
  }

  function NameOf(t: ToolCandidate): string {
    t.name
  }

  /** Every kept entry is a candidate under its own name. */
  lemma PickedEntries(tools: seq<ToolCandidate>)
    ensures forall n :: Picked(tools).Has(n) ==> Picked(tools).Get(n).name == n && Picked(tools).Get(n) in tools
  {
    forall n | Picked(tools).Has(n) ensures Picked(tools).Get(n).name == n && Picked(tools).Get(n) in tools {
      PickedAt(tools, n);
      var os := OfName(tools, n);
      BestIsFirst(os);
      var i :| 0 <= i < |os| && os[i] == Best(os) && forall j :: 0 <= j < i ==> os[j].finalPriority < Best(os).finalPriority;
      assert os[i] in os;
    }
  }

  lemma PickedValuesDistinct(tools: seq<ToolCandidate>)
    ensures var vs := Picked(tools).Values();
      forall i, j :: 0 <= i < j < |vs| ==> NameOf(vs[i]) != NameOf(vs[j])
  {
    var m := Picked(tools);
    var vs := m.Values();
    PickedEntries(tools);
    forall i, j | 0 <= i < j < |vs| ensures NameOf(vs[i]) != NameOf(vs[j]) {
      assert m.keys[i] in m.keys && m.keys[j] in m.keys;
      assert m.Has(m.keys[i]) && m.Has(m.keys[j]);
      assert vs[i] == m.Get(m.keys[i]) && vs[j] == m.Get(m.keys[j]);
    }
  }

  /** The sorted de-duplicated candidates, of which the first five are kept. */
  function SortedPicks(tools: seq<ToolCandidate>): seq<ToolCandidate> {
    SortDesc(Picked(tools).Values(), FinalPriority)
  }

  lemma SortedPicksSpec(tools: seq<ToolCandidate>)
    ensures SortedDesc(SortedPicks(tools), FinalPriority)
    ensures forall i, j :: 0 <= i < j < |SortedPicks(tools)| ==> SortedPicks(tools)[i].name != SortedPicks(tools)[j].name
    ensures forall e :: e in SortedPicks(tools) <==> e in Picked(tools).Values()
    ensures Prioritized(tools) == SortedPicks(tools)[..|Prioritized(tools)|]
    ensures |Prioritized(tools)| == if |SortedPicks(tools)| < 5 then |SortedPicks(tools)| else 5
  {
    var vs := Picked(tools).Values();
    SortDescProps(vs, FinalPriority);
    PermutationMembers(vs, SortedPicks(tools));
    PickedValuesDistinct(tools);
    DistinctKeysPermutation(vs, SortedPicks(tools), NameOf);
  }

  lemma PrioritizedEntries(tools: seq<ToolCandidate>)
    ensures forall e :: e in Prioritized(tools) ==> e in tools && OfName(tools, e.name) != [] && e == Best(OfName(tools, e.name))
  {
    var m := Picked(tools);
    var vs := m.Values();
    SortedPicksSpec(tools);
    PickedEntries(tools);
    forall e | e in Prioritized(tools) ensures e in tools && OfName(tools, e.name) != [] && e == Best(OfName(tools, e.name)) {
      assert e in SortedPicks(tools);
      var a :| 0 <= a < |vs| && vs[a] == e;
      assert m.keys[a] in m.keys;
      PickedAt(tools, m.keys[a]);
    }
  }

  /** A name that has candidates is either kept, or beaten by five kept
      candidates. */
  lemma PrioritizedCoversName(tools: seq<ToolCandidate>, n: string)
    requires OfName(tools, n) != []
    ensures var r := Prioritized(tools);
      (exists e :: e in r && e.name == n)
      || (|r| == 5 && forall e :: e in r ==> e.finalPriority >= Best(OfName(tools, n)).finalPriority)
  {
    var m := Picked(tools);
    var vs := m.Values();
    var sorted := SortedPicks(tools);
    var r := Prioritized(tools);
    SortedPicksSpec(tools);
    PickedAt(tools, n);
    var a :| 0 <= a < |m.keys| && m.keys[a] == n;
    var v := vs[a];
    assert v == m.Get(n) && v in vs;
    PickedEntries(tools);
    var k :| 0 <= k < |sorted| && sorted[k] == v;
    if k < |r| {
      assert r[k] == v && v.name == n;
    } else {
      forall e | e in r ensures e.finalPriority >= v.finalPriority {
        var i :| 0 <= i < |r| && r[i] == e;
        assert sorted[i] == e;
      }
    }
  }

  lemma PrioritizedCovers(tools: seq<ToolCandidate>)
    ensures var r := Prioritized(tools);
      forall t :: t in tools ==>
        (exists e :: e in r && e.name == t.name)
        || (|r| == 5 && forall e :: e in r ==> e.finalPriority >= Best(OfName(tools, t.name)).finalPriority)
  {
    forall t | t in tools ensures (exists e :: e in Prioritized(tools) && e.name == t.name)
      || (|Prioritized(tools)| == 5 && forall e :: e in Prioritized(tools) ==> e.finalPriority >= Best(OfName(tools, t.name)).finalPriority)
    {
      assert t in OfName(tools, t.name);
      PrioritizedCoversName(tools, t.name);
    }
  }

  /** `prioritizeTools(tools)`: at most five candidates with distinct names,
      by non-increasing final priority; for each name the earliest candidate
      of largest final priority; and a name is dropped only when five kept
      candidates rank at least as high as its best. */
  lemma PrioritizedSpec(tools: seq<ToolCandidate>)
    ensures var r := Prioritized(tools);
      && |r| <= 5
      && SortedDesc(r, FinalPriority)
      && (forall i, j :: 0 <= i < j < |r| ==> r[i].name != r[j].name)
      && (forall e :: e in r ==> e in tools && OfName(tools, e.name) != [] && e == Best(OfName(tools, e.name)))
      && (forall t :: t in tools ==>
            (exists e :: e in r && e.name == t.name)
            || (|r| == 5 && forall e :: e in r ==> e.finalPriority >= Best(OfName(tools, t.name)).finalPriority))
  {
    SortedPicksSpec(tools);
    PrioritizedEntries(tools);
    PrioritizedCovers(tools);
  }

  // ===========================================================================
  // calculateOverallConfidence

  function SumConf(scenes: seq<DetectedScene>): real {
    if scenes == [] then 0.0 else SumConf(scenes[..|scenes| - 1]) + scenes[|scenes| - 1].confidence
  }

  lemma {:induction false} SumConfBounds(scenes: seq<DetectedScene>)
    requires forall s :: s in scenes ==> 0.0 <= s.confidence <= 1.0
    ensures 0.0 <= SumConf(scenes) <= |scenes| as real
  {
    if scenes != [] {
      var init := scenes[..|scenes| - 1];
      assert forall s :: s in init ==> s in scenes;
      assert scenes[|scenes| - 1] in scenes;
      SumConfBounds(init);
    }
  }

  /** `calculateOverallConfidence(scenes)`: 0 for no scene, otherwise the mean
      confidence capped at 1; with every confidence in [0, 1] it is the mean
      itself, inside [0, 1]. */
  function CalculateOverallConfidence(scenes: seq<DetectedScene>): (r: real)
    ensures scenes == [] ==> r == 0.0
    ensures r <= 1.0
    ensures scenes != [] && (forall s :: s in scenes ==> 0.0 <= s.confidence <= 1.0) ==>
      r == SumConf(scenes) / (|scenes| as real) && 0.0 <= r
  {
    if |scenes| == 0 then 0.0
    else
      var n := |scenes| as real;
      var mean := SumConf(scenes) / n;
      if forall s :: s in scenes ==> 0.0 <= s.confidence <= 1.0 then
        SumConfBounds(scenes);
        assert mean <= 1.0 by {
          assert SumConf(scenes) <= n;
        }
        Min1(mean)
      else Min1(mean)
  }

  // ===========================================================================
  // analyzeScene

  /** A chat message: the whole message object as the chat holds it, with
      `mes`, `content` and whatever other properties it has. */
  datatype ChatMessage = ChatMessage(fields: seq<Field>)

  datatype SceneContext = SceneContext(userInput: Option<string>, chatHistory: Option<seq<ChatMessage>>,
                                       characterInfo: Option<CharacterInfo>)

  datatype AnalysisResult = AnalysisResult(detectedScenes: seq<DetectedScene>, recommendedTools: seq<ToolCandidate>,
                                           confidence: real)

  /** `message.mes || message.content` as `analyzeText` takes it: a string,
      or nothing when the value is not a string. */
  function MessageText(m: ChatMessage): (r: Option<string>)
    ensures var mes := FieldValue(m.fields, "mes");
      mes.Value? && mes.v.JStr? && mes.v.s != "" ==> r == Some(mes.v.s)
    ensures var mes := FieldValue(m.fields, "mes");
      !Truthy(mes.AsOption()) ==>
        var content := FieldValue(m.fields, "content");
        r == if content.Value? && content.v.JStr? then Some(content.v.s) else None
    ensures Truthy(FieldValue(m.fields, "mes").AsOption()) && !FieldValue(m.fields, "mes").v.JStr? ==> r == None
  {
    var mes := FieldValue(m.fields, "mes");
    var text := if Truthy(mes.AsOption()) then mes else FieldValue(m.fields, "content");
    if text.Value? && text.v.JStr? then Some(text.v.s) else None
  }

  function HistoryScenes(catalog: seq<SceneDef>, messages: seq<ChatMessage>): seq<DetectedScene> {
    if messages == [] then []
    else HistoryScenes(catalog, messages[..|messages| - 1]) + TextScenes(catalog, MessageText(messages[|messages| - 1]))
  }

  /** The input, then the last five history messages, then the card. */
  function ContextScenes(catalog: seq<SceneDef>, ctx: SceneContext): seq<DetectedScene> {
    TextScenes(catalog, ctx.userInput)
    + (if ctx.chatHistory.Some? then HistoryScenes(catalog, LastN(ctx.chatHistory.value, 5)) else [])
    + (if ctx.characterInfo.Some? then CharacterScenes(catalog, ctx.characterInfo.value) else [])
  }

  function CandidatesFor(table: map<string, seq<ToolSuggestion>>, scenes: seq<DetectedScene>): seq<ToolCandidate> {
    if scenes == [] then []
    else CandidatesFor(table, scenes[..|scenes| - 1]) + GetToolsForScene(table, scenes[|scenes| - 1])
  }

  function AnalysisOf(catalog: seq<SceneDef>, table: map<string, seq<ToolSuggestion>>, ctx: SceneContext): AnalysisResult {
    var unique := Ranked(ContextScenes(catalog, ctx));
    AnalysisResult(unique, Prioritized(CandidatesFor(table, unique)), CalculateOverallConfidence(unique))
  }

  lemma {:induction false} HistoryScenesBounds(catalog: seq<SceneDef>, messages: seq<ChatMessage>)
    ensures forall s :: s in HistoryScenes(catalog, messages) ==> 0.3 < s.confidence <= 1.0
  {
    if messages != [] {
      HistoryScenesBounds(catalog, messages[..|messages| - 1]);
      TextScenesSpec(catalog, MessageText(messages[|messages| - 1]));
    }
  }

  /** A candidate for the scene list is a table entry of one of the scenes,
      weighted by that scene's confidence. */
  ghost predicate FromScene(table: map<string, seq<ToolSuggestion>>, scenes: seq<DetectedScene>, c: ToolCandidate) {
    exists s :: s in scenes && s.sceneType in table && c.sceneType == s.sceneType && c.sceneConfidence == s.confidence
      && c.finalPriority == c.priority * s.confidence
      && (exists i :: 0 <= i < |table[s.sceneType]| && c.name == table[s.sceneType][i].name && c.priority == table[s.sceneType][i].priority)
  }

  lemma {:induction false} CandidatesForSpec(table: map<string, seq<ToolSuggestion>>, scenes: seq<DetectedScene>)
    ensures forall c :: c in CandidatesFor(table, scenes) ==> FromScene(table, scenes, c)
  {
    if scenes != [] {
      var init := scenes[..|scenes| - 1];
      var last := scenes[|scenes| - 1];
      CandidatesForSpec(table, init);
      forall c | c in CandidatesFor(table, scenes) ensures FromScene(table, scenes, c) {
        if c in CandidatesFor(table, init) {
          assert FromScene(table, init, c);
          var s :| s in init && s.sceneType in table && c.sceneType == s.sceneType && c.sceneConfidence == s.confidence
            && c.finalPriority == c.priority * s.confidence
            && (exists i :: 0 <= i < |table[s.sceneType]| && c.name == table[s.sceneType][i].name && c.priority == table[s.sceneType][i].priority);
          assert s in scenes;
        } else {
          var ts := GetToolsForScene(table, last);
          assert c in ts;
          var i :| 0 <= i < |ts| && ts[i] == c;
          assert last in scenes;
        }
      }
    }
  }

  /** Every scene gathered from a context has a confidence in (0.21, 1]. */
  lemma ContextScenesBounds(catalog: seq<SceneDef>, ctx: SceneContext)
    ensures forall s :: s in ContextScenes(catalog, ctx) ==> 0.21 < s.confidence <= 1.0
  {
    TextScenesSpec(catalog, ctx.userInput);
    if ctx.chatHistory.Some? {
      HistoryScenesBounds(catalog, LastN(ctx.chatHistory.value, 5));
    }
    if ctx.characterInfo.Some? {
      CharacterScenesBounds(catalog, ctx.characterInfo.value);
    }
  }

  /** Ranking scenes whose confidences lie in (0.21, 1] gives distinct types
      sorted by confidence, still in (0.21, 1], and an overall confidence
      that is their mean. */
  lemma RankedAnalysis(all: seq<DetectedScene>)
    requires forall s :: s in all ==> 0.21 < s.confidence <= 1.0
    ensures var unique := Ranked(all);
      var c := CalculateOverallConfidence(unique);
      && SortedDesc(unique, Conf)
      && (forall i, j :: 0 <= i < j < |unique| ==> unique[i].sceneType != unique[j].sceneType)
      && (forall s :: s in unique ==> 0.21 < s.confidence <= 1.0)
      && (unique == [] ==> c == 0.0)
      && (unique != [] ==> c == SumConf(unique) / (|unique| as real))
      && 0.0 <= c <= 1.0
  {
    RankedSpec(all);
    RankedConfidences(all, 0.21, 1.0);
  }

  /** The detected scenes of `analyzeScene` and its overall confidence. */
  lemma AnalysisScenesSpec(catalog: seq<SceneDef>, table: map<string, seq<ToolSuggestion>>, ctx: SceneContext)
    ensures var r := AnalysisOf(catalog, table, ctx);
      && SortedDesc(r.detectedScenes, Conf)
      && (forall i, j :: 0 <= i < j < |r.detectedScenes| ==> r.detectedScenes[i].sceneType != r.detectedScenes[j].sceneType)
      && (forall s :: s in r.detectedScenes ==> 0.21 < s.confidence <= 1.0)
      && (r.detectedScenes == [] ==> r.confidence == 0.0)
      && (r.detectedScenes != [] ==> r.confidence == SumConf(r.detectedScenes) / (|r.detectedScenes| as real))
      && 0.0 <= r.confidence <= 1.0
  {
    var all := ContextScenes(catalog, ctx);
    ContextScenesBounds(catalog, ctx);
    RankedAnalysis(all);
    var r := AnalysisOf(catalog, table, ctx);
    assert r.detectedScenes == Ranked(all) && r.confidence == CalculateOverallConfidence(Ranked(all));
  }

  /** `analyzeScene(context)`: distinct scene types ranked by confidence,
      each confidence in (0.21, 1]; an overall confidence that is their mean;
      at most five recommendations with distinct names, each a table entry of
      a detected scene weighted by that scene's confidence. */
  lemma AnalysisSpec(catalog: seq<SceneDef>, table: map<string, seq<ToolSuggestion>>, ctx: SceneContext)
    ensures var r := AnalysisOf(catalog, table, ctx);
      && SortedDesc(r.detectedScenes, Conf)
      && (forall i, j :: 0 <= i < j < |r.detectedScenes| ==> r.detectedScenes[i].sceneType != r.detectedScenes[j].sceneType)
      && (forall s :: s in r.detectedScenes ==> 0.21 < s.confidence <= 1.0)
      && (r.detectedScenes == [] ==> r.confidence == 0.0)
      && (r.detectedScenes != [] ==> r.confidence == SumConf(r.detectedScenes) / (|r.detectedScenes| as real))
      && 0.0 <= r.confidence <= 1.0
      && |r.recommendedTools| <= 5
      && SortedDesc(r.recommendedTools, FinalPriority)
      && (forall i, j :: 0 <= i < j < |r.recommendedTools| ==> r.recommendedTools[i].name != r.recommendedTools[j].name)
      && (forall c :: c in r.recommendedTools ==> FromScene(table, r.detectedScenes, c))
  {
    AnalysisScenesSpec(catalog, table, ctx);
    var unique := Ranked(ContextScenes(catalog, ctx));
    var cands := CandidatesFor(table, unique);
    PrioritizedSpec(cands);
    CandidatesForSpec(table, unique);
  }

  // ===========================================================================
  // The analyzer object

  /** `new SceneAnalyzer()`: the catalogue built by `initializePatterns`, and
      the table `getToolsForScene` consults. */
  class SceneAnalyzer {
    const scenePatterns: seq<SceneDef>
    const toolMappings: map<string, seq<ToolSuggestion>>

    constructor ()
      ensures scenePatterns == Catalog() && toolMappings == ToolMappings()
    {
      scenePatterns := Catalog();
      toolMappings := ToolMappings();
    }

    /** The body of the loop of `analyzeText` for one catalogue entry: the
        keywords, patterns and context clues found, and the score they add
        up to. */
    method ScoreScene(config: SceneDef, t: string, lowerText: string) returns (confidence: real, matches: seq<SceneMatch>)
      requires lowerText == ToLower(t)
      ensures var (kw, pt, cl) := Evidence(config, t);
        matches == kw + pt + cl && confidence == Score(|kw|, |pt|, |cl|)
    {
      confidence := 0.0;
      matches := [];

      var i := 0;
      while i < |config.keywords|
        invariant 0 <= i <= |config.keywords|
        invariant matches == WordHits(config.keywords[..i], lowerText, Keyword)
        invariant confidence == 0.3 * (|matches| as real)
      {
        assert config.keywords[..i + 1][..i] == config.keywords[..i];
        if Contains(lowerText, config.keywords[i]) {
          confidence := confidence + 0.3;
          matches := matches + [SceneMatch(Keyword, config.keywords[i])];
        }
        i := i + 1;
      }
      assert config.keywords[..i] == config.keywords;
      ghost var kw := matches;

      i := 0;
      while i < |config.patterns|
        invariant 0 <= i <= |config.patterns|
        invariant matches == kw + PatternHits(config.patterns[..i], t)
        invariant confidence == 0.3 * (|kw| as real) + 0.5 * (|PatternHits(config.patterns[..i], t)| as real)
      {
        assert config.patterns[..i + 1][..i] == config.patterns[..i];
        if Matches(config.patterns[i].shape, t) {
          confidence := confidence + 0.5;
          matches := matches + [SceneMatch(PatternMatch, config.patterns[i].source)];
        }
        i := i + 1;
      }
      assert config.patterns[..i] == config.patterns;
      ghost var pt := PatternHits(config.patterns, t);

      i := 0;
      while i < |config.contextClues|
        invariant 0 <= i <= |config.contextClues|
        invariant matches == kw + pt + WordHits(config.contextClues[..i], lowerText, ContextClue)
        invariant confidence == Score(|kw|, |pt|, |WordHits(config.contextClues[..i], lowerText, ContextClue)|)
      {
        assert config.contextClues[..i + 1][..i] == config.contextClues[..i];
        if Contains(lowerText, config.contextClues[i]) {
          confidence := confidence + 0.2;
          matches := matches + [SceneMatch(ContextClue, config.contextClues[i])];
        }
        i := i + 1;
      }
      assert config.contextClues[..i] == config.contextClues;
    }

    /** `analyzeText(text)`. `None` stands for every falsy or non-string text. */
    method AnalyzeText(text: Option<string>) returns (scenes: seq<DetectedScene>)
      ensures scenes == TextScenes(scenePatterns, text)
    {
      if text.None? || text.value == "" {
        return [];
      }
      var t := text.value;
      var lowerText := ToLower(t);
      var catalog := scenePatterns;
      scenes := [];
      var d := 0;
      while d < |catalog|
        invariant 0 <= d <= |catalog|
        invariant scenes == Collect(catalog[..d], SceneFor(t))
      {
        var config := catalog[d];
        var confidence, matches := ScoreScene(config, t, lowerText);
        if confidence > 0.3 {
          scenes := scenes + [DetectedScene(config.sceneType, Min1(confidence), matches, TextAnalysis)];
        }
        assert SceneFor(t)(config) == SceneOf(config, t);
        assert catalog[..d + 1][..d] == catalog[..d];
        d := d + 1;
      }
      assert catalog[..d] == catalog;
    }

    /** `analyzeCharacterContext(characterInfo)`. */
    method AnalyzeCharacterContext(info: CharacterInfo) returns (scenes: seq<DetectedScene>)
      ensures scenes == CharacterScenes(scenePatterns, info)
    {
      ghost var fromDescription := TextScenes(scenePatterns, info.description);
      ghost var fromScenario := TextScenes(scenePatterns, info.scenario);
      ghost var fromPersonality := PersonalityAll(TextScenes(scenePatterns, info.personality));
      scenes := [];
      if info.description.Some? && info.description.value != "" {
        var found := AnalyzeText(info.description);
        scenes := scenes + found;
      }
      assert scenes == fromDescription;
      if info.scenario.Some? && info.scenario.value != "" {
        var found := AnalyzeText(info.scenario);
        scenes := scenes + found;
      } else {
        assert fromScenario == [];
      }
      assert scenes == fromDescription + fromScenario;
      if info.personality.Some? && info.personality.value != "" {
        var personalityScenes := AnalyzeText(info.personality);
        scenes := scenes + PersonalityAll(personalityScenes);
      } else {
        assert fromPersonality == [];
      }
    }

    /** `deduplicateAndRank(scenes)`. */
    method DeduplicateAndRank(scenes: seq<DetectedScene>) returns (ranked: seq<DetectedScene>)
      ensures ranked == Ranked(scenes)
    {
      var sceneMap := Empty<DetectedScene>();
      var i := 0;
      while i < |scenes|
        invariant 0 <= i <= |scenes|
        invariant sceneMap == Merged(scenes[..i])
      {
        var scene := scenes[i];
        var key := scene.sceneType;
        assert scenes[..i + 1][..i] == scenes[..i];
        assert Merged(scenes[..i + 1]) == MergeStep(sceneMap, scene);
        if sceneMap.Has(key) {
          var existing := sceneMap.Get(key);
          existing := existing.(confidence := Max(existing.confidence, scene.confidence));
          existing := existing.(matches := existing.matches + scene.matches);
          sceneMap := sceneMap.Set(key, existing);
        } else {
          sceneMap := sceneMap.Set(key, scene);
        }
        i := i + 1;
      }
      assert scenes[..i] == scenes;
      ranked := SortDesc(sceneMap.Values(), Conf);
    }

    /** `prioritizeTools(tools)`. */
    method PrioritizeTools(tools: seq<ToolCandidate>) returns (top: seq<ToolCandidate>)
      ensures top == Prioritized(tools)
    {
      var toolMap := Empty<ToolCandidate>();
      var i := 0;
      while i < |tools|
        invariant 0 <= i <= |tools|
        invariant toolMap == Picked(tools[..i])
      {
        var tool := tools[i];
        var key := tool.name;
        assert tools[..i + 1][..i] == tools[..i];
        assert Picked(tools[..i + 1]) == PickStep(toolMap, tool);
        if toolMap.Has(key) {
          var existing := toolMap.Get(key);
          if tool.finalPriority > existing.finalPriority {
            toolMap := toolMap.Set(key, tool);
          }
        } else {
          toolMap := toolMap.Set(key, tool);
        }
        i := i + 1;
      }
      assert tools[..i] == tools;
      top := SliceTo(SortDesc(toolMap.Values(), FinalPriority), 5);
    }

    /** The loop of `analyzeScene` over the recent messages. */
    method AnalyzeMessages(recentMessages: seq<ChatMessage>) returns (scenes: seq<DetectedScene>)
      ensures scenes == HistoryScenes(scenePatterns, recentMessages)
    {
      scenes := [];
      var i := 0;
      while i < |recentMessages|
        invariant 0 <= i <= |recentMessages|
        invariant scenes == HistoryScenes(scenePatterns, recentMessages[..i])
      {
        assert recentMessages[..i + 1][..i] == recentMessages[..i];
        var messageScenes := AnalyzeText(MessageText(recentMessages[i]));
        scenes := scenes + messageScenes;
        i := i + 1;
      }
      assert recentMessages[..i] == recentMessages;
    }

    /** The first half of `analyzeScene(context)`: the scenes of the input,
        of the last five history messages and of the character card. */
    method GatherScenes(ctx: SceneContext) returns (detectedScenes: seq<DetectedScene>)
      ensures detectedScenes == ContextScenes(scenePatterns, ctx)
    {
      var inputScenes: seq<DetectedScene> := [];
      if ctx.userInput.Some? && ctx.userInput.value != "" {
        inputScenes := AnalyzeText(ctx.userInput);
      }
      var historyScenes: seq<DetectedScene> := [];
      if ctx.chatHistory.Some? && |ctx.chatHistory.value| > 0 {
        historyScenes := AnalyzeMessages(LastN(ctx.chatHistory.value, 5));
      }
      var characterScenes: seq<DetectedScene> := [];
      if ctx.characterInfo.Some? {
        characterScenes := AnalyzeCharacterContext(ctx.characterInfo.value);
      }
      detectedScenes := inputScenes + historyScenes + characterScenes;
    }

    /** `analyzeScene(context)`. A null chat message, which makes the source
        throw, is not representable. */
    method AnalyzeScene(ctx: SceneContext) returns (r: AnalysisResult)
      ensures r == AnalysisOf(scenePatterns, toolMappings, ctx)
    {
      var detectedScenes := GatherScenes(ctx);
      var uniqueScenes := DeduplicateAndRank(detectedScenes);

      var recommendedTools: seq<ToolCandidate> := [];
      var k := 0;
      while k < |uniqueScenes|
        invariant 0 <= k <= |uniqueScenes|
        invariant recommendedTools == CandidatesFor(toolMappings, uniqueScenes[..k])
      {
        assert uniqueScenes[..k + 1][..k] == uniqueScenes[..k];
        assert CandidatesFor(toolMappings, uniqueScenes[..k + 1])
          == CandidatesFor(toolMappings, uniqueScenes[..k]) + GetToolsForScene(toolMappings, uniqueScenes[k]);
        var tools := GetToolsForScene(toolMappings, uniqueScenes[k]);
        recommendedTools := recommendedTools + tools;
        k := k + 1;
      }
      assert uniqueScenes[..k] == uniqueScenes;

      var top := PrioritizeTools(recommendedTools);
      r := AnalysisResult(uniqueScenes, top, CalculateOverallConfidence(uniqueScenes));
    }
  }
}
