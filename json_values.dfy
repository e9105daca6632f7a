/** JSON values as the plugin exchanges them with tool backends, and the three
    JavaScript operations the core applies to them: `JSON.stringify`,
    truthiness, and property access with template-string rendering. */
module JsonValues {
  import opened Common

  /** A parsed JSON value. A number is the decimal `mantissa / 10^scale`
      (every literal JSON.parse reads is one); object keys are distinct. */
  datatype Json =
    | JNull
    | JBool(b: bool)
    | JNum(mantissa: int, scale: nat)
    | JStr(s: string)
    | JArr(items: seq<Json>)
    | JObj(fields: seq<Field>)

  datatype Field = Field(key: string, value: Json)

  /** The integer `n` as a JSON number. */
  function Int(n: int): Json {
    JNum(n, 0)
  }

  function Pow10(n: nat): (p: nat)
    ensures p >= 1
  {
    if n == 0 then 1 else 10 * Pow10(n - 1)
  }

  /** The numeric value of a JSON number. */
  function NumValue(j: Json): real
    requires j.JNum?
  {
    j.mantissa as real / Pow10(j.scale) as real
  }

  // ---------------------------------------------------------------------------
  // Number rendering, `String(x)` for a decimal

  /** The same decimal without trailing zeros after the point. */
  function Normalize(m: int, s: nat): (r: (int, nat))
    ensures r.1 <= s
    decreases s
  {
    if s > 0 && m % 10 == 0 then Normalize(m / 10, s - 1) else (m, s)
  }

  /** The last `width` decimal digits of `d`, zero-padded on the left. */
  function PadDigits(d: nat, width: nat): (r: string)
    ensures |r| == width
    decreases width
  {
    if width == 0 then "" else PadDigits(d / 10, width - 1) + [DigitChar(d % 10)]
  }

  /** How JavaScript writes the decimal `m / 10^s`: the shortest form, with a
      fractional part only when there is one. */
  function NumberToString(m: int, s: nat): string {
    var (m', s') := Normalize(m, s);
    if s' == 0 then IntToString(m')
    else
      var a: nat := if m' < 0 then -m' else m';
      var digits := if |NatToString(a)| > s' then NatToString(a) else PadDigits(a, s' + 1);
      var cut := |digits| - s';
      (if m' < 0 then "-" else "") + digits[..cut] + "." + digits[cut..]
  }

  // ---------------------------------------------------------------------------
  // JSON.stringify

  function HexDigit(d: nat): char
    requires d < 16
  {
    "0123456789abcdef"[d]
  }

  /** How `JSON.stringify` writes one character inside a string literal. */
  function EscapeChar(c: char): string {
    if c == '"' then "\\\""
    else if c == '\\' then "\\\\"
    else if c == '\U{0008}' then "\\b"
    else if c == '\U{000C}' then "\\f"
    else if c == '\n' then "\\n"
    else if c == '\r' then "\\r"
    else if c == '\t' then "\\t"
    else if (c as int) < 0x20 then "\\u00" + [HexDigit(c as int / 16), HexDigit(c as int % 16)]
    else [c]
  }

  function Escape(s: string): string {
    if s == [] then "" else EscapeChar(s[0]) + Escape(s[1..])
  }

  function Quote(s: string): string {
    "\"" + Escape(s) + "\""
  }

  /** `JSON.stringify(j)`, without whitespace. */
  function Stringify(j: Json): string
    decreases j, 1
  {
    match j
    case JNull => "null"
    case JBool(b) => if b then "true" else "false"
    case JNum(m, sc) => NumberToString(m, sc)
    case JStr(s) => Quote(s)
    case JArr(items) => "[" + StringifyItems(items) + "]"
    case JObj(fields) => "{" + StringifyFields(fields) + "}"
  }

  function StringifyItems(items: seq<Json>): string
    decreases items, 0
  {
    if items == [] then ""
    else if |items| == 1 then Stringify(items[0])
    else Stringify(items[0]) + "," + StringifyItems(items[1..])
  }

  function StringifyFields(fields: seq<Field>): string
    decreases fields, 0
  {
    if fields == [] then ""
    else
      var f := fields[0];
      var one := Quote(f.key) + ":" + Stringify(f.value);
      if |fields| == 1 then one else one + "," + StringifyFields(fields[1..])
  }

  // ---------------------------------------------------------------------------
  // Truthiness; `undefined` is the absent value `None`

  /** JavaScript truthiness of a possibly-undefined value. */
  predicate Truthy(v: Option<Json>) {
    match v
    case None => false
    case Some(JNull) => false
    case Some(JBool(b)) => b
    case Some(JNum(m, _)) => m != 0
    case Some(JStr(s)) => s != ""
    case Some(JArr(_)) => true
    case Some(JObj(_)) => true
  }

  /** A string is truthy exactly when it is present and non-empty. */
  predicate TruthyString(s: Option<string>) {
    s.Some? && s.value != ""
  }

  // ---------------------------------------------------------------------------
  // Property access

  /** What `x.key` evaluates to: `undefined`, a value, or a TypeError when `x`
      is null or undefined. */
  datatype Lookup = Undefined | Value(v: Json) | Throws {
    function AsOption(): Option<Json>
      requires !Throws?
    {
      if Value? then Some(v) else None
    }
  }

  function FieldValue(fields: seq<Field>, key: string): (r: Lookup)
    ensures !r.Throws?
  {
    if fields == [] then Undefined
    else if fields[0].key == key then Value(fields[0].value)
    else FieldValue(fields[1..], key)
  }

  /** `j.key` for a JSON value `j`. */
  function Prop(j: Json, key: string): (r: Lookup)
    ensures r.Throws? <==> j.JNull?
  {
    match j
    case JNull => Throws
    case JObj(fields) => FieldValue(fields, key)
    case JArr(items) => if key == "length" then Value(Int(|items|)) else Undefined
    case JStr(s) => if key == "length" then Value(Int(|s|)) else Undefined
    case _ => Undefined
  }

  /** `x.key` where `x` is itself the result of a property access. */
  function PropOf(x: Lookup, key: string): (r: Lookup)
    ensures !x.Value? ==> r.Throws?
  {
    match x
    case Value(j) => Prop(j, key)
    case _ => Throws
  }

  /** `x || d` for a property read that did not throw. */
  function Or(x: Lookup, d: Json): (r: Json)
    requires !x.Throws?
    ensures Truthy(x.AsOption()) ==> r == x.v
    ensures !Truthy(x.AsOption()) ==> r == d
  {
    if Truthy(x.AsOption()) then x.v else d
  }

  /** `x > 0` for a numeric or boolean `x`; every other value compares false. */
  predicate Positive(x: Lookup) {
    match x
    case Value(JNum(m, _)) => m > 0
    case Value(JBool(b)) => b
    case _ => false
  }

  // ---------------------------------------------------------------------------
  // Template-string rendering `${x}`

  /** `String(j)`. */
  function Display(j: Json): string
    decreases j, 1
  {
    match j
    case JNull => "null"
    case JBool(b) => if b then "true" else "false"
    case JNum(m, sc) => NumberToString(m, sc)
    case JStr(s) => s
    case JArr(items) => DisplayItems(items)
    case JObj(_) => "[object Object]"
  }

  /** `Array.prototype.join(",")`, which writes null elements as "". */
  function DisplayItems(items: seq<Json>): string
    decreases items, 0
  {
    if items == [] then ""
    else
      var first := if items[0].JNull? then "" else Display(items[0]);
      if |items| == 1 then first else first + "," + DisplayItems(items[1..])
  }

  /** `${x}` for a property-access result that did not throw. */
  function DisplayLookup(x: Lookup): string
    requires !x.Throws?
  {
    if x.Value? then Display(x.v) else "undefined"
  }

  // ---------------------------------------------------------------------------
  // Objects as ordered field lists

  /** `key in obj` for an own property. */
  predicate HasField(fields: seq<Field>, key: string) {
    exists i | 0 <= i < |fields| :: fields[i].key == key
  }

  lemma FieldValueDefined(fields: seq<Field>, key: string)
    ensures FieldValue(fields, key).Value? <==> HasField(fields, key)
  {
    if fields != [] && fields[0].key != key {
      FieldValueDefined(fields[1..], key);
      assert HasField(fields[1..], key) ==> HasField(fields, key) by {
        if HasField(fields[1..], key) {
          var i :| 0 <= i < |fields[1..]| && fields[1..][i].key == key;
          assert fields[i + 1].key == key;
        }
      }
      assert HasField(fields, key) ==> HasField(fields[1..], key) by {
        if HasField(fields, key) {
          var i :| 0 <= i < |fields| && fields[i].key == key;
          assert fields[1..][i - 1].key == key;
        }
      }
    } else if fields != [] {
      assert fields[0].key == key;
    }
  }

  /** `obj[key] = v`: an existing property keeps its place, a new one goes last. */
  function SetField(fields: seq<Field>, key: string, v: Json): (r: seq<Field>)
    ensures FieldValue(r, key) == Value(v)
    ensures forall k :: k != key ==> FieldValue(r, k) == FieldValue(fields, k)
  {
    if fields == [] then [Field(key, v)]
    else if fields[0].key == key then [Field(key, v)] + fields[1..]
    else [fields[0]] + SetField(fields[1..], key, v)
  }

  /** `obj[key] = undefined` as `JSON.stringify` sees it: the key is gone. */
  function RemoveField(fields: seq<Field>, key: string): (r: seq<Field>)
    ensures FieldValue(r, key) == Undefined
    ensures forall k :: k != key ==> FieldValue(r, k) == FieldValue(fields, k)
  {
    if fields == [] then []
    else if fields[0].key == key then RemoveField(fields[1..], key)
    else [fields[0]] + RemoveField(fields[1..], key)
  }

  /** Setting a property adds exactly that key to the object's keys. */
  lemma SetFieldKeys(fields: seq<Field>, key: string, v: Json)
    ensures forall k :: HasField(SetField(fields, key, v), k) <==> HasField(fields, k) || k == key
  {
    forall k ensures HasField(SetField(fields, key, v), k) <==> HasField(fields, k) || k == key {
      FieldValueDefined(SetField(fields, key, v), k);
      FieldValueDefined(fields, k);
    }
  }

  /** No key occurs twice, as in every object `JSON.parse` returns. */
  predicate DistinctKeys(fields: seq<Field>) {
    forall i, j | 0 <= i < j < |fields| :: fields[i].key != fields[j].key
  }

  /** In an object without repeated keys, each field is what its key reads. */
  lemma {:induction false} FieldValueIndex(fields: seq<Field>, i: nat)
    requires DistinctKeys(fields) && i < |fields|
    ensures FieldValue(fields, fields[i].key) == Value(fields[i].value)
  {
    if i > 0 {
      var rest := fields[1..];
      assert fields[0].key != fields[i].key;
      assert DistinctKeys(rest) by {
        forall a, b | 0 <= a < b < |rest| ensures rest[a].key != rest[b].key {
          assert rest[a] == fields[a + 1] && rest[b] == fields[b + 1];
        }
      }
      FieldValueIndex(rest, i - 1);
    }
  }

  /** `{...base, ...over}`: the properties of `over`, in order, set on a copy
      of `base`. */
  function Spread(base: seq<Field>, over: seq<Field>): (r: seq<Field>)
    decreases |over|
  {
    if over == [] then base else Spread(SetField(base, over[0].key, over[0].value), over[1..])
  }

  /** In a spread, a property of `over` wins and every other property keeps
      its value from `base`. */
  lemma {:induction false} SpreadValue(base: seq<Field>, over: seq<Field>, k: string)
    requires DistinctKeys(over)
    ensures FieldValue(Spread(base, over), k) == if HasField(over, k) then FieldValue(over, k) else FieldValue(base, k)
    decreases |over|
  {
    if over != [] {
      var b := SetField(base, over[0].key, over[0].value);
      var rest := over[1..];
      assert DistinctKeys(rest) by {
        forall i, j | 0 <= i < j < |rest| ensures rest[i].key != rest[j].key {
          assert rest[i] == over[i + 1] && rest[j] == over[j + 1];
        }
      }
      SpreadValue(b, rest, k);
      FieldValueDefined(over, k);
      FieldValueDefined(rest, k);
      if k == over[0].key {
        forall i | 0 <= i < |rest| ensures rest[i].key != k {
          assert rest[i] == over[i + 1];
        }
      }
    }
  }

  /** A spread has exactly the keys of its two operands. */
  lemma SpreadKeys(base: seq<Field>, over: seq<Field>, k: string)
    requires DistinctKeys(over)
    ensures HasField(Spread(base, over), k) <==> HasField(base, k) || HasField(over, k)
  {
    SpreadValue(base, over, k);
    FieldValueDefined(Spread(base, over), k);
    FieldValueDefined(base, k);
    FieldValueDefined(over, k);
  }

  /** `Number(x)` for a property-access result; `None` is NaN. Numeric
      strings and one-element arrays, which JavaScript also converts, are
      read as NaN here. */
  function ToNumber(x: Lookup): (r: Option<real>)
    ensures x.Value? && x.v.JNum? ==> r == Some(NumValue(x.v))
    ensures x.Undefined? || x.Throws? ==> r.None?
  {
    match x
    case Value(JNull) => Some(0.0)
    case Value(JBool(b)) => Some(if b then 1.0 else 0.0)
    case Value(JNum(_, _)) => Some(NumValue(x.v))
    case Value(JStr(s)) => if s == "" then Some(0.0) else None
    case Value(JArr(items)) => if items == [] then Some(0.0) else None
    case _ => None
  }

  /** `x.includes(s)` on an array (element equality) or a string (substring);
      `None` when `x` has no `includes` method and the call throws. */
  function Includes(x: Lookup, s: string): (r: Option<bool>)
    ensures x.Value? && x.v.JArr? ==> r == Some(JStr(s) in x.v.items)
    ensures !x.Value? ==> r.None?
  {
    match x
    case Value(JArr(items)) => Some(JStr(s) in items)
    case Value(JStr(t)) => Some(Contains(t, s))
    case _ => None
  }
}
