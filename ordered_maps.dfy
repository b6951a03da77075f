/**
 * A JavaScript `Map` keyed by strings, or a plain object whose keys are
 * never array indices: a finite map whose entries are visited in insertion
 * order. Setting an existing key keeps its place; deleting a key drops it
 * from the order.
 */
module OrderedMaps {
  datatype OrderedMap<V> = OrderedMap(keys: seq<string>, values: map<string, V>)

  /** Every key occurs once in the order. */
  ghost predicate UniqueKeys(keys: seq<string>)
  {
    forall i, j | 0 <= i < j < |keys| :: keys[i] != keys[j]
  }

  /** The visiting order lists exactly the keys of the map, each once. */
  ghost predicate Valid<V>(m: OrderedMap<V>)
  {
    UniqueKeys(m.keys) && forall k :: k in m.keys <==> k in m.values
  }

  function Empty<V>(): (r: OrderedMap<V>)
    ensures Valid(r) && r.values == map[] && r.keys == []
  {
    OrderedMap([], map[])
  }

  /** `map.set(k, v)` / `record[k] = v`. */
  function Put<V>(m: OrderedMap<V>, k: string, v: V): (r: OrderedMap<V>)
    requires Valid(m)
    ensures Valid(r)
    ensures r.values == m.values[k := v]
    ensures r.keys == if k in m.values then m.keys else m.keys + [k]
  {
    if k in m.values then OrderedMap(m.keys, m.values[k := v])
    else
      assert k !in m.keys;
      OrderedMap(m.keys + [k], m.values[k := v])
  }

  /** `map.delete(k)`. */
  function Remove<V>(m: OrderedMap<V>, k: string): (r: OrderedMap<V>)
    requires Valid(m)
    ensures Valid(r)
    ensures r.values == m.values - {k}
    ensures r.keys == Without(m.keys, k)
  {
    OrderedMap(Without(m.keys, k), m.values - {k})
  }

  /** The order with `k` taken out and every other key kept in place. */
  function Without(keys: seq<string>, k: string): (r: seq<string>)
    ensures forall x :: x in r <==> x in keys && x != k
    ensures UniqueKeys(keys) ==> UniqueKeys(r)
    ensures k !in keys ==> r == keys
  {
    if |keys| == 0 then []
    else if keys[0] == k then Without(keys[1..], k)
    else
      var rest := Without(keys[1..], k);
      assert forall x :: x in keys <==> x == keys[0] || x in keys[1..];
      assert UniqueKeys(keys) ==> keys[0] !in rest;
      [keys[0]] + rest
  }

  /** `map.forEach` / `Object.values`: the values in insertion order. */
  function Values<V>(m: OrderedMap<V>): (r: seq<V>)
    requires Valid(m)
    ensures |r| == |m.keys|
    ensures forall i | 0 <= i < |r| :: r[i] == m.values[m.keys[i]]
  {
    seq(|m.keys|, i requires 0 <= i < |m.keys| => m.values[m.keys[i]])
  }

  /** Setting a new key and deleting it again gives back the original map, order included. */
  lemma PutThenRemove<V>(m: OrderedMap<V>, k: string, v: V)
    requires Valid(m) && k !in m.values
    ensures Remove(Put(m, k, v), k) == m
  {
    WithoutLast(m.keys, k);
  }

  lemma {:induction false} WithoutLast(keys: seq<string>, k: string)
    requires k !in keys
    ensures Without(keys + [k], k) == keys
  {
    if |keys| > 0 {
      assert (keys + [k])[1..] == keys[1..] + [k];
      WithoutLast(keys[1..], k);
    }
  }

  /** Overwriting a key keeps every key where it was. */
  lemma PutExistingKeepsOrder<V>(m: OrderedMap<V>, k: string, v: V)
    requires Valid(m) && k in m.values
    ensures Put(m, k, v).keys == m.keys
    ensures Values(Put(m, k, v)) == Values(m)[IndexOf(m.keys, k) := v]
  {
  }

  /** The position of a key in the order. */
  function IndexOf(keys: seq<string>, k: string): (i: nat)
    requires k in keys
    ensures i < |keys| && keys[i] == k
  {
    if keys[0] == k then 0 else 1 + IndexOf(keys[1..], k)
  }
}
