/** A sequence that lists a finite map, each entry exactly once, in some order. */
module Listing {

  ghost predicate Distinct<K>(keys: seq<K>) {
    forall i, j | 0 <= i < j < |keys| :: keys[i] != keys[j]
  }

  /** `keys` says which entry each element of `vals` is; no entry is missing or listed twice. */
  ghost predicate Lists<K, V>(vals: seq<V>, keys: seq<K>, m: map<K, V>) {
    && |vals| == |keys|
    && Distinct(keys)
    && (forall i | 0 <= i < |keys| :: keys[i] in m && vals[i] == m[keys[i]])
    && (forall k | k in m :: k in keys)
  }

  /** The same, whatever the order. */
  ghost predicate Enumerates<K(!new), V>(vals: seq<V>, m: map<K, V>) {
    exists keys :: Lists(vals, keys, m)
  }

  lemma ListsNothing<K, V>()
    ensures Lists<K, V>([], [], map[])
  {
  }

  lemma ListsBoth<K, V>(v1: seq<V>, k1: seq<K>, m1: map<K, V>, v2: seq<V>, k2: seq<K>, m2: map<K, V>)
    requires Lists(v1, k1, m1) && Lists(v2, k2, m2)
    requires m1.Keys !! m2.Keys
    ensures Lists(v1 + v2, k1 + k2, m1 + m2)
  {
    var ks := k1 + k2;
    assert forall i | 0 <= i < |k1| :: ks[i] in m1.Keys;
    assert forall i | |k1| <= i < |ks| :: ks[i] in m2.Keys;
    forall k | k in m1 + m2 ensures k in ks {
      if k in m2 {
        assert k in k2;
      } else {
        assert k in k1;
      }
    }
  }

  lemma ListsOneMore<K, V>(vals: seq<V>, keys: seq<K>, m: map<K, V>, k: K, v: V)
    requires Lists(vals, keys, m) && k !in m
    ensures Lists(vals + [v], keys + [k], m[k := v])
  {
    assert Lists([v], [k], map[k := v]) by {
      assert [k][0] == k;
    }
    ListsBoth(vals, keys, m, [v], [k], map[k := v]);
    assert m + map[k := v] == m[k := v];
  }

  /** A complete list has exactly as many elements as the map has entries. */
  lemma {:induction false} ListLength<K, V>(vals: seq<V>, keys: seq<K>, m: map<K, V>)
    requires Lists(vals, keys, m)
    ensures |vals| == |m|
  {
    if keys == [] {
      assert m == map[];
    } else {
      var n := |keys| - 1;
      var k := keys[n];
      var rest := m - {k};
      forall x | x in rest ensures x in keys[..n] {
        var i :| 0 <= i < |keys| && keys[i] == x;
        assert keys[..n][i] == x;
      }
      assert forall i | 0 <= i < n :: keys[..n][i] in rest;
      ListLength(vals[..n], keys[..n], rest);
      assert m.Keys == rest.Keys + {k};
    }
  }
}
