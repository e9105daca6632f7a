/** The fixed scene catalogue of the classifier: per scene its keywords, its
    regular expressions and its context clues (src/SceneAnalyzer.js,
    `initializePatterns`), and the tools suggested for each scene
    (`getToolsForScene`'s table).

    Every regular expression of the core has one of two shapes, and is
    represented by that shape rather than by a general regex engine:
    `(A1|…|An).*?(B1|…|Bm)` — some Ai, then later on the same line some Bj
    (JavaScript's `.` does not match a line terminator) — or a plain
    alternation `A1|…|An`. The `i` flag has no effect on the CJK-only
    patterns of the catalogue. */
module ScenePatterns {
  import opened Common

  datatype Shape =
    | Ordered(first: seq<string>, second: seq<string>)
    | AnyOf(alts: seq<string>)

  /** A regular expression: its `source` text and its shape. */
  datatype Regex = Regex(source: string, shape: Shape)

  /** No line terminator in `s[i..j]`. */
  predicate SameLine(s: string, i: int, j: int)
    requires 0 <= i <= j <= |s|
  {
    forall k | i <= k < j :: !IsLineTerminator(s[k])
  }

  /** `a` at `i`, then `b` at `j`, with only non-line-terminators between. */
  predicate OrderedAt(s: string, a: string, b: string, i: int, j: int) {
    OccursAt(s, a, i) && i + |a| <= j && OccursAt(s, b, j) && SameLine(s, i + |a|, j)
  }

  /** `regex.test(s)` for a regex of the given shape. */
  predicate Matches(shape: Shape, s: string) {
    match shape
    case Ordered(first, second) =>
      exists p, q, i, j | 0 <= p < |first| && 0 <= q < |second| && 0 <= i <= |s| && 0 <= j <= |s| ::
        OrderedAt(s, first[p], second[q], i, j)
    case AnyOf(alts) =>
      exists p | 0 <= p < |alts| :: Contains(s, alts[p])
  }

  /** One entry of the scene catalogue. */
  datatype SceneDef = SceneDef(sceneType: string, keywords: seq<string>, patterns: seq<Regex>, contextClues: seq<string>)

  function Seq2(a: string, b: string): Regex {
    Regex(a + ".*?" + b, Ordered([a], [b]))
  }

  function Alt(alts: seq<string>): string {
    "(" + Join(alts, "|") + ")"
  }

  /** `a.*?(b1|b2|…)` */
  function ThenOneOf(a: string, bs: seq<string>): Regex {
    Regex(a + ".*?" + Alt(bs), Ordered([a], bs))
  }

  /** `(a1|a2|…).*?b` */
  function OneOfThen(as_: seq<string>, b: string): Regex {
    Regex(Alt(as_) + ".*?" + b, Ordered(as_, [b]))
  }

  /** `(a1|…).*?(b1|…)` */
  function OneOfThenOneOf(as_: seq<string>, bs: seq<string>): Regex {
    Regex(Alt(as_) + ".*?" + Alt(bs), Ordered(as_, bs))
  }

  function WeatherScene(): SceneDef {
    SceneDef("weather",
      ["天气", "下雨", "晴天", "阴天", "温度", "气温", "风", "雪", "雾"],
      [Seq2("今天", "天气"), ThenOneOf("外面", ["下雨", "晴天", "阴天"]),
       ThenOneOf("温度", ["高", "低", "热", "冷"]), ThenOneOf("看", ["天空", "云", "太阳"])],
      ["outdoor", "outside", "weather", "temperature", "rain", "sunny"])
  }

  function LocationScene(): SceneDef {
    SceneDef("location",
      ["地址", "位置", "在哪", "去哪", "路线", "导航", "附近"],
      [ThenOneOf("在", ["哪里", "什么地方"]), ThenOneOf("去", ["商店", "餐厅", "医院", "学校"]),
       ThenOneOf("附近", ["有什么", "哪里有"]), Seq2("怎么", "去")],
      ["location", "address", "nearby", "direction", "map"])
  }

  function TimeScene(): SceneDef {
    SceneDef("time",
      ["时间", "几点", "什么时候", "日期", "星期", "月份"],
      [Seq2("现在", "几点"), ThenOneOf("今天", ["星期", "日期"]), ThenOneOf("什么时候", ["开始", "结束"])],
      ["time", "date", "schedule", "when"])
  }

  function MemoryScene(): SceneDef {
    SceneDef("memory",
      ["记得", "想起", "以前", "之前", "历史", "过去"],
      [Seq2("还记得", "吗"), ThenOneOf("以前", ["说过", "做过"]),
       ThenOneOf("我们", ["聊过", "谈过"]), ThenOneOf("上次", ["见面", "对话"])],
      ["remember", "recall", "history", "previous", "before"])
  }

  function SearchScene(): SceneDef {
    SceneDef("search",
      ["搜索", "查找", "了解", "知道", "信息", "资料"],
      [ThenOneOf("搜索", ["关于", "有关"]), ThenOneOf("查找", ["信息", "资料"]),
       ThenOneOf("了解", ["更多", "详细"]), ThenOneOf("告诉我", ["关于", "有关"])],
      ["search", "find", "information", "learn", "know"])
  }

  function ShoppingScene(): SceneDef {
    SceneDef("shopping",
      ["买", "购买", "价格", "商品", "店铺", "优惠"],
      [Seq2("想", "买"), ThenOneOf("价格", ["多少", "便宜", "贵"]),
       ThenOneOf("哪里", ["有卖", "能买"]), ThenOneOf("推荐", ["商品", "店铺"])],
      ["buy", "purchase", "price", "shop", "store"])
  }

  function PhysicalScene(): SceneDef {
    SceneDef("physical_interaction",
      ["触摸", "拥抱", "亲吻", "身体", "肌肤", "温度", "心跳"],
      [ThenOneOf("感受", ["温暖", "柔软", "心跳"]), OneOfThenOneOf(["触摸", "抚摸", "拥抱"], ["轻柔", "温柔"]),
       ThenOneOf("身体", ["贴近", "接触", "感觉"]), OneOfThenOneOf(["呼吸", "心跳"], ["加快", "急促"])],
      ["touch", "embrace", "physical", "intimate", "gentle", "warm"])
  }

  function EmotionScene(): SceneDef {
    SceneDef("emotional_state",
      ["情绪", "感情", "心情", "开心", "难过", "愤怒", "紧张", "兴奋"],
      [ThenOneOf("感到", ["开心", "难过", "愤怒", "紧张", "兴奋"]), ThenOneOf("心情", ["好", "不好", "复杂"]),
       ThenOneOf("情绪", ["波动", "变化", "激动"]), OneOfThen(["高兴", "沮丧", "焦虑", "平静"], "了")],
      ["emotion", "feeling", "mood", "happy", "sad", "angry", "excited"])
  }

  function RelationshipScene(): SceneDef {
    SceneDef("relationship",
      ["关系", "朋友", "恋人", "伙伴", "信任", "依赖", "亲密"],
      [ThenOneOf("我们", ["关系", "感情"]), OneOfThen(["信任", "依赖", "喜欢"], "你"),
       ThenOneOf("你", ["对我", "感觉"]), OneOfThen(["朋友", "恋人", "伙伴"], "关系")],
      ["relationship", "trust", "intimate", "partner", "friend", "lover"])
  }

  /** The catalogue in the order `initializePatterns` inserts it into its Map. */
  function Catalog(): (c: seq<SceneDef>)
    ensures |c| == 9
  {
    [WeatherScene(), LocationScene(), TimeScene(), MemoryScene(), SearchScene(),
     ShoppingScene(), PhysicalScene(), EmotionScene(), RelationshipScene()]
  }

  // ---------------------------------------------------------------------------
  // Tools suggested per scene

  datatype ToolSuggestion = ToolSuggestion(name: string, priority: real, reason: string)

  /** The `toolMappings` object of `getToolsForScene`. */
  function ToolMappings(): map<string, seq<ToolSuggestion>> {
    map[
      "weather" :=
        [ToolSuggestion("weather-api", 1.0, "获取实时天气信息"),
         ToolSuggestion("location-service", 0.8, "确定天气查询位置")],
      "location" :=
        [ToolSuggestion("maps-api", 1.0, "提供地图和位置信息"),
         ToolSuggestion("places-api", 0.9, "查找附近地点"),
         ToolSuggestion("directions-api", 0.8, "提供路线导航")],
      "time" :=
        [ToolSuggestion("datetime-service", 1.0, "获取准确时间信息"),
         ToolSuggestion("calendar-api", 0.7, "查询日程安排")],
      "memory" :=
        [ToolSuggestion("conversation-memory", 1.0, "检索历史对话"),
         ToolSuggestion("character-memory", 0.9, "回忆角色相关信息"),
         ToolSuggestion("rag-search", 0.8, "搜索相关记忆片段")],
      "search" :=
        [ToolSuggestion("web-search", 1.0, "搜索网络信息"),
         ToolSuggestion("knowledge-base", 0.9, "查询知识库"),
         ToolSuggestion("rag-search", 0.8, "检索相关文档")],
      "shopping" :=
        [ToolSuggestion("product-search", 1.0, "搜索商品信息"),
         ToolSuggestion("price-comparison", 0.9, "比较价格"),
         ToolSuggestion("store-locator", 0.7, "查找附近商店")],
      "physical_interaction" :=
        [ToolSuggestion("physics-engine", 1.0, "物理交互模拟"),
         ToolSuggestion("anatomy-guide", 0.9, "解剖学指导"),
         ToolSuggestion("sensation-mapper", 0.8, "感觉映射"),
         ToolSuggestion("interaction-validator", 0.7, "交互验证")],
      "emotional_state" :=
        [ToolSuggestion("emotion-analyzer", 1.0, "情感分析"),
         ToolSuggestion("mood-tracker", 0.9, "情绪追踪"),
         ToolSuggestion("empathy-engine", 0.8, "共情引擎"),
         ToolSuggestion("emotional-memory", 0.7, "情感记忆")],
      "relationship" :=
        [ToolSuggestion("relationship-tracker", 1.0, "关系追踪"),
         ToolSuggestion("intimacy-meter", 0.9, "亲密度计算"),
         ToolSuggestion("trust-analyzer", 0.8, "信任度分析"),
         ToolSuggestion("compatibility-checker", 0.7, "兼容性检查")]
    ]
  }

  /** Every priority of a table lies in (0, 1]. */
  predicate PrioritiesInRange(table: map<string, seq<ToolSuggestion>>) {
    forall k, i | k in table && 0 <= i < |table[k]| :: 0.0 < table[k][i].priority <= 1.0
  }

  lemma ToolMappingsInRange()
    ensures PrioritiesInRange(ToolMappings())
  {
  }
}
