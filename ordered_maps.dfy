/**
 * A JavaScript `Map`: a finite map whose entries iterate in the order their
 * keys were first set. Setting a key that is present replaces its value and
 * keeps its place; deleting a key drops it from the order.
 */
module OrderedMaps {
  import opened Wrappers
  import opened Seqs

  datatype OMap<K(==,!new), V> = OMap(keys: seq<K>, entries: map<K, V>)
  {
    /** Each key is listed once, and the listed keys are exactly the mapped ones. */
    ghost predicate Valid() {
      Distinct(keys) && forall k :: k in entries <==> k in keys
    }

    predicate Has(k: K) {
      k in entries
    }

    function Get(k: K): Option<V> {
      if k in entries then Some(entries[k]) else None
    }

    function Set(k: K, v: V): (r: OMap<K, V>)
      ensures Valid() ==> r.Valid()
      ensures r.entries == entries[k := v]
      ensures r.keys == if k in entries then keys else keys + [k]
    {
      if k in entries then OMap(keys, entries[k := v]) else OMap(keys + [k], entries[k := v])
    }

    function Delete(k: K): (r: OMap<K, V>)
      ensures Valid() ==> r.Valid()
      ensures r.entries == entries - {k}
      ensures r.keys == Filter(keys, (x: K) => x != k)
    {
      var keep := (x: K) => x != k;
      var kept := Filter(keys, keep);
      DeleteValid(keys, entries, k, keep);
      OMap(kept, entries - {k})
    }

    /** `Array.from(map.values())`: the values in key order. */
    function Values(): (vs: seq<V>)
      requires forall k :: k in keys ==> k in entries
      ensures |vs| == |keys|
      ensures forall i :: 0 <= i < |keys| ==> vs[i] == entries[keys[i]]
    {
      seq(|keys|, i requires 0 <= i < |keys| => entries[keys[i]])
    }
  }

  lemma DeleteValid<K(!new), V>(keys: seq<K>, entries: map<K, V>, k: K, keep: K -> bool)
    requires forall x :: keep(x) == (x != k)
    ensures OMap(keys, entries).Valid() ==> OMap(Filter(keys, keep), entries - {k}).Valid()
  {
    if OMap(keys, entries).Valid() {
      FilterDistinct(keys, keep);
      forall x ensures x in Filter(keys, keep) <==> x in keys && x != k {
        FilterMembers(keys, keep, x);
      }
    }
  }

  function EmptyMap<K(==,!new), V>(): (m: OMap<K, V>)
    ensures m.Valid() && m.keys == [] && m.entries == map[]
  {
    OMap([], map[])
  }
}
