/** Go maps used as tallies: totals that do not depend on the order of iteration. */
module Tables {
  import opened Sequences

  /** Some duplicate-free listing of a set. */
  ghost function Listing<K(!new)>(keys: set<K>): (ks: seq<K>)
    ensures Distinct(ks)
    ensures forall k :: k in ks <==> k in keys
  {
    if keys == {} then [] else
      var k :| k in keys;
      [k] + Listing(keys - {k})
  }

  function At<K>(m: map<K, int>): K -> int {
    k => if k in m then m[k] else 0
  }

  ghost function MapTotal<K(!new)>(m: map<K, int>): int {
    SumBy(Listing(m.Keys), At(m))
  }

  /** Any iteration order adds up to the same total. */
  lemma MapTotalListing<K(!new)>(m: map<K, int>, ks: seq<K>)
    requires Distinct(ks) && forall k :: k in ks <==> k in m
    ensures SumBy(ks, At(m)) == MapTotal(m)
  {
    DistinctPermutes(ks, Listing(m.Keys));
    SumByPermutation(ks, Listing(m.Keys), At(m));
  }

  lemma MapTotalUpdate<K(!new)>(m: map<K, int>, k: K, v: int)
    ensures MapTotal(m[k := v]) == MapTotal(m) - At(m)(k) + v
  {
    var m' := m[k := v];
    var ks := Listing(m.Keys - {k});
    assert SumBy(ks, At(m)) == SumBy(ks, At(m')) by {
      SumByCongruent(ks, At(m), At(m'));
    }
    SumByConcat([k], ks, At(m'));
    MapTotalListing(m', [k] + ks);
    if k in m {
      SumByConcat([k], ks, At(m));
      MapTotalListing(m, [k] + ks);
    } else {
      MapTotalListing(m, ks);
    }
  }

  lemma MapTotalEmpty<K(!new)>()
    ensures MapTotal<K>(map[]) == 0
  {
    var empty: map<K, int> := map[];
    assert empty.Keys == {};
  }

  /** `counts[k] += n`. */
  function Add<K(==)>(counts: map<K, int>, k: K, n: int): map<K, int> {
    counts[k := At(counts)(k) + n]
  }

  lemma AddTotal<K(!new)>(counts: map<K, int>, k: K, n: int)
    ensures MapTotal(Add(counts, k, n)) == MapTotal(counts) + n
  {
    MapTotalUpdate(counts, k, At(counts)(k) + n);
  }
}
