/** The JavaScript `Map` with string keys: a key-to-value table that also remembers the order
    in which keys were first inserted. `set` on a present key replaces the
    value and keeps the key's position; iteration follows that order. */
module OrderedMaps {

  datatype OMap<V> = OMap(keys: seq<string>, table: map<string, V>) {

    /** The keys are distinct and are exactly the table's domain. */
    ghost predicate Valid() {
      && Distinct(keys)
      && (forall k :: k in table <==> k in keys)
    }

    /** `map.has(k)`. */
    predicate Has(k: string) {
      k in table
    }

    /** `map.get(k)` for a present key. */
    function Get(k: string): V
      requires Has(k)
    {
      table[k]
    }

    /** `map.set(k, v)`. */
    function Set(k: string, v: V): (m: OMap<V>)
      requires Valid()
      ensures m.Valid()
      ensures m.table == table[k := v]
      ensures m.keys == if k in keys then keys else keys + [k]
    {
      if k in table then OMap(keys, table[k := v]) else OMap(keys + [k], table[k := v])
    }

    /** `map.delete(k)`. */
    function Delete(k: string): (m: OMap<V>)
      requires Valid()
      ensures m.Valid()
      ensures m.table == table - {k}
      ensures forall x :: x in m.keys <==> x in keys && x != k
    {
      OMap(Without(keys, k), table - {k})
    }

    /** `Array.from(map.values())`. */
    function Values(): (vs: seq<V>)
      requires Valid()
      ensures |vs| == |keys|
      ensures forall i :: 0 <= i < |keys| ==> vs[i] == table[keys[i]]
    {
      seq(|keys|, i requires 0 <= i < |keys| => table[keys[i]])
    }

    /** `Array.from(map.entries())`. */
    function Entries(): (es: seq<(string, V)>)
      requires Valid()
      ensures |es| == |keys|
      ensures forall i :: 0 <= i < |keys| ==> es[i] == (keys[i], table[keys[i]])
    {
      seq(|keys|, i requires 0 <= i < |keys| => (keys[i], table[keys[i]]))
    }

    /** The number of entries, `map.size`. */
    function Size(): nat {
      |keys|
    }
  }

  /** `new Map()`. */
  function Empty<V>(): (m: OMap<V>)
    ensures m.Valid() && m.keys == [] && m.table == map[]
  {
    OMap([], map[])
  }

  /** No key occurs twice. */
  ghost predicate Distinct(s: seq<string>) {
    forall i, j :: 0 <= i < j < |s| ==> s[i] != s[j]
  }

  /** `keys` without the element `k`, order kept. */
  function Without(keys: seq<string>, k: string): (r: seq<string>)
    ensures forall x :: x in r <==> x in keys && x != k
    ensures Distinct(keys) ==> Distinct(r)
  {
    if keys == [] then []
    else if keys[0] == k then Without(keys[1..], k)
    else
      var rest := Without(keys[1..], k);
      var r := [keys[0]] + rest;
      assert Distinct(keys) ==> keys[0] !in keys[1..];
      assert Distinct(keys) ==> Distinct(r) by {
        if Distinct(keys) {
          forall i, j | 0 <= i < j < |r| ensures r[i] != r[j] {
            if i == 0 {
              assert r[j] in rest;
            } else {
              assert r[i] == rest[i - 1] && r[j] == rest[j - 1];
            }
          }
        }
      }
      r
  }
}
