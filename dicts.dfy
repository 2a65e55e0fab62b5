/** Python's `dict`: a finite map that remembers the order in which its
    keys were first inserted, which is the order `keys()` and `items()`
    iterate in. */
module Dicts {

  datatype Dict<K(!new), V> = Dict(keys: seq<K>, entries: map<K, V>) {

    /** Every key occurs once in the order, and the order lists exactly
        the keys of the map. */
    ghost predicate Valid() {
      && (forall i, j :: 0 <= i < j < |keys| ==> keys[i] != keys[j])
      && (forall k :: k in entries <==> k in keys)
    }

    /** `d[k] = v`: a new key goes to the end of the order, an existing key
        keeps its place. */
    function Set(k: K, v: V): (d: Dict<K, V>)
      requires Valid()
      ensures d.Valid()
      ensures d.entries == entries[k := v]
      ensures d.keys == if k in entries then keys else keys + [k]
    {
      if k in entries then Dict(keys, entries[k := v]) else Dict(keys + [k], entries[k := v])
    }
  }

  /** A dict that satisfies its invariant, as every Python dict does. */
  type PyDict<K(!new), V> = d: Dict<K, V> | d.Valid() witness Dict([], map[])

  /** Two dicts with the same key order have the same keys. */
  lemma SameOrderSameKeys<K(!new), V, W>(a: Dict<K, V>, b: Dict<K, W>)
    requires a.Valid() && b.Valid() && a.keys == b.keys
    ensures a.entries.Keys == b.entries.Keys
  {
    forall k | k in a.entries ensures k in b.entries {
      assert k in a.keys;
    }
    forall k | k in b.entries ensures k in a.entries {
      assert k in b.keys;
    }
  }

  /** `{}`. */
  function Empty<K(!new), V>(): (d: Dict<K, V>)
    ensures d.Valid() && d.keys == [] && d.entries == map[]
  {
    Dict([], map[])
  }
}
