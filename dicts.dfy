/** Python's insertion-ordered `dict`, as a value: the keys in insertion order and the mapping. */
module Dicts {

  datatype Dict<K(==,!new), V> = Dict(keys: seq<K>, m: map<K, V>) {

    /** The keys are distinct and are exactly the mapping's domain. */
    ghost predicate Valid() {
      && (forall i, j :: 0 <= i < j < |keys| ==> keys[i] != keys[j])
      && (forall k :: k in m <==> k in keys)
    }

    /** Storing `v` under `k`: a new key is appended to the key order, an existing key keeps its place. */
    function Put(k: K, v: V): (d: Dict<K, V>)
      ensures d.m == m[k := v]
      ensures d.keys == if k in m then keys else keys + [k]
      ensures Valid() ==> d.Valid()
    {
      if k in m then Dict(keys, m[k := v]) else Dict(keys + [k], m[k := v])
    }

    /** `list(d.values())`. */
    function Values(): (vs: seq<V>)
      requires Valid()
      ensures |vs| == |keys|
      ensures forall i :: 0 <= i < |keys| ==> vs[i] == m[keys[i]]
    {
      seq(|keys|, i requires 0 <= i < |keys| => m[keys[i]])
    }

    /** Overwriting the value at key position `i` overwrites the `i`-th value. */
    lemma ValuesPutPresent(k: K, v: V, i: nat)
      requires Valid() && i < |keys| && keys[i] == k
      ensures Put(k, v).Values() == Values()[i := v]
    {
    }

    /** A new key's value comes last. */
    lemma ValuesPutAbsent(k: K, v: V)
      requires Valid() && k !in m
      ensures Put(k, v).Values() == Values() + [v]
    {
    }

    /** The value under `k`, or `dflt` where there is none. */
    function GetOr(k: K, dflt: V): V {
      if k in m then m[k] else dflt
    }
  }

  /** `{}`. */
  function Empty<K(==,!new), V>(): (d: Dict<K, V>)
    ensures d.Valid() && d.keys == [] && d.m == map[]
  {
    Dict([], map[])
  }
}
