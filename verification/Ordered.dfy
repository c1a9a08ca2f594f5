/**
 * A JavaScript object (or `Map`) as the generator sees it: a finite map whose
 * keys are enumerated in insertion order. Assigning to a key that is already
 * present keeps its position; assigning to a new key appends it.
 */
module Ordered {
  import opened Wrappers

  datatype OrderedMap<K(==), V> = OrderedMap(keys: seq<K>, vals: map<K, V>) {

    /** The keys are listed once each, and exactly the keys of `vals` are listed. */
    ghost predicate Valid() {
      && (forall i, j :: 0 <= i < j < |keys| ==> keys[i] != keys[j])
      && (forall k :: k in vals ==> k in keys)
      && (forall i :: 0 <= i < |keys| ==> keys[i] in vals)
    }

    /** `obj[k]`: the value stored at `k`, or None (`undefined`) when `k` is absent. */
    function Get(k: K): (r: Option<V>)
      ensures r.Some? <==> k in vals
      ensures r.Some? ==> r.value == vals[k]
    {
      if k in vals then Some(vals[k]) else None
    }

    /** `obj[k] = v`. */
    function Put(k: K, v: V): (r: OrderedMap<K, V>)
      ensures Valid() ==> r.Valid()
      ensures r.vals == vals[k := v]
      ensures k in vals ==> r.keys == keys
      ensures k !in vals ==> r.keys == keys + [k]
    {
      if k in vals then OrderedMap(keys, vals[k := v])
      else OrderedMap(keys + [k], vals[k := v])
    }
  }

  /** Assigning a key twice leaves only the second assignment, at the key's first position. */
  lemma PutTwice<K, V>(m: OrderedMap<K, V>, k: K, a: V, b: V)
    ensures m.Put(k, a).Put(k, b) == m.Put(k, b)
  {
    assert m.vals[k := a][k := b] == m.vals[k := b];
  }

  /** `{}` or `new Map()`. */
  function Empty<K(==), V>(): (m: OrderedMap<K, V>)
    ensures m.Valid() && m.keys == [] && m.vals == map[]
  {
    OrderedMap([], map[])
  }
}
