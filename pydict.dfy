/**
 * A Python `dict` as the pipeline uses it: a finite map that also remembers the order
 * in which keys were first inserted (the order `dict.items()` iterates in).
 */
module PyDict {

  /** No key is listed twice. */
  predicate Distinct<K(==)>(keys: seq<K>) {
    keys == [] || (keys[|keys| - 1] !in keys[..|keys| - 1] && Distinct(keys[..|keys| - 1]))
  }

  datatype DictRep<K, V> = DictRep(keys: seq<K>, vals: map<K, V>) {
    /** Keys listed once each, and exactly the keys of the map. */
    predicate Valid() {
      && Distinct(keys)
      && (forall i :: 0 <= i < |keys| ==> keys[i] in vals)
      && (forall k :: k in vals ==> k in keys)
    }
  }

  type Dict<K, V> = d: DictRep<K, V> | d.Valid() witness DictRep([], map[])

  /** `{}`. */
  function Empty<K, V>(): (d: Dict<K, V>)
    ensures d.keys == [] && d.vals == map[]
  {
    DictRep([], map[])
  }

  /**
   * `d[k] = v`: the value is replaced (last write wins), a new key goes to the end
   * of the iteration order and an existing key keeps its place.
   */
  function Put<K, V>(d: Dict<K, V>, k: K, v: V): (r: Dict<K, V>)
    ensures r.vals == d.vals[k := v]
    ensures k in d.vals ==> r.keys == d.keys
    ensures k !in d.vals ==> r.keys == d.keys + [k]
  {
    if k in d.vals then DictRep(d.keys, d.vals[k := v])
    else
      assert (d.keys + [k])[..|d.keys|] == d.keys;
      DictRep(d.keys + [k], d.vals[k := v])
  }
}
