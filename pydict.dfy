/**
 * A Python `dict`: keys in insertion order and a value per key.  Assigning
 * to a key that is already present replaces its value and keeps its place.
 */
module PyDict {
  import opened Strings

  datatype Dict<K(==), V> = Dict(keys: seq<K>, vals: map<K, V>) {

    predicate Valid() {
      Distinct(keys) && (forall k :: k in vals ==> k in keys) && (forall k :: k in keys ==> k in vals)
    }

    /** `d[k] = v`. */
    function Put(k: K, v: V): (d: Dict<K, V>)
      ensures Valid() ==> d.Valid()
      ensures d.vals == vals[k := v]
      ensures k in vals ==> d.keys == keys
      ensures k !in vals ==> d.keys == keys + [k]
    {
      if k in vals then Dict(keys, vals[k := v]) else Dict(keys + [k], vals[k := v])
    }

    /** `d.items()`, in key order. */
    function Items(): (r: seq<(K, V)>)
      requires Valid()
      ensures |r| == |keys|
      ensures forall i :: 0 <= i < |keys| ==> r[i] == (keys[i], vals[keys[i]])
    {
      seq(|keys|, i requires 0 <= i < |keys| => (keys[i], vals[keys[i]]))
    }
  }

  function Empty<K(==), V>(): (d: Dict<K, V>)
    ensures d.Valid() && d.keys == [] && d.vals == map[]
  {
    Dict([], map[])
  }
}
