/** Python's insertion-ordered `dict`, as far as the scripts observe its order. */
module PyDict {

  /** The keys in insertion order, and the key-to-value map. */
  datatype Dict<K(==), V> = Dict(keys: seq<K>, items: map<K, V>) {

    /** Each key is listed once, and the listed keys are exactly the keys of the map. */
    predicate Valid() {
      && (forall i, j :: 0 <= i < j < |keys| ==> keys[i] != keys[j])
      && (forall k | k in items :: k in keys)
      && (forall i | 0 <= i < |keys| :: keys[i] in items)
    }

    /** `d[k] = v`: a new key is placed last; an existing key keeps its place and takes the new value. */
    function Set(k: K, v: V): (d: Dict<K, V>)
      requires Valid()
      ensures d.Valid()
      ensures d.items == items[k := v]
      ensures k in items ==> d.keys == keys
      ensures k !in items ==> d.keys == keys + [k]
    {
      if k in items then Dict(keys, items[k := v]) else Dict(keys + [k], items[k := v])
    }
  }

  /** `{}`. */
  function EmptyDict<K(==), V>(): (d: Dict<K, V>)
    ensures d.Valid() && d.keys == [] && d.items == map[]
  {
    Dict([], map[])
  }
}
