/** Sums, arbitrary iteration order and sorting, shared by the other modules. */
module Sequences {

  ghost predicate Distinct<T(!new)>(xs: seq<T>) {
    forall i, j :: 0 <= i < j < |xs| ==> xs[i] != xs[j]
  }

  ghost predicate Permutes<T>(xs: seq<T>, ys: seq<T>) {
    multiset(xs) == multiset(ys)
  }

  function Map<A, B>(f: A -> B, xs: seq<A>): (ys: seq<B>)
    ensures |ys| == |xs|
    ensures forall i :: 0 <= i < |xs| ==> ys[i] == f(xs[i])
  {
    seq(|xs|, i requires 0 <= i < |xs| => f(xs[i]))
  }

  /** 0, 1, ..., n - 1. */
  function Range(n: nat): (r: seq<nat>)
    ensures |r| == n && forall i :: 0 <= i < n ==> r[i] == i
  {
    seq(n, i => i)
  }

  ghost predicate Ascending(c: seq<nat>) {
    forall x, y :: 0 <= x < y < |c| ==> c[x] < c[y]
  }

  /** Prefixes of a sequence one element apart. */
  lemma PrefixStep<T>(xs: seq<T>, i: nat)
    requires i < |xs|
    ensures xs[..i + 1] == xs[..i] + [xs[i]]
    ensures xs[..i + 1][..i] == xs[..i]
  {
  }

  lemma PrefixMembers<T>(xs: seq<T>, i: nat)
    requires i < |xs|
    ensures forall x :: x in xs[..i + 1] <==> x in xs[..i] || x == xs[i]
  {
    PrefixStep(xs, i);
  }

  lemma SubsetSize<T>(a: set<T>, b: set<T>)
    requires a <= b
    ensures |a| <= |b|
    ensures |a| == |b| ==> a == b
  {
    var rest := b - a;
    assert b == a + rest;
    if |a| == |b| {
      assert |rest| == 0;
    }
  }

  lemma MapStep<A, B>(f: A -> B, xs: seq<A>, i: nat)
    requires i < |xs|
    ensures Map(f, xs[..i + 1]) == Map(f, xs[..i]) + [f(xs[i])]
    ensures Map(f, xs[..i + 1])[..i] == Map(f, xs[..i])
  {
  }

  function SumBy<T>(xs: seq<T>, f: T -> int): int {
    if xs == [] then 0 else SumBy(xs[..|xs| - 1], f) + f(xs[|xs| - 1])
  }

  lemma SumByStep<T>(xs: seq<T>, f: T -> int, i: nat)
    requires i < |xs|
    ensures SumBy(xs[..i + 1], f) == SumBy(xs[..i], f) + f(xs[i])
  {
    PrefixStep(xs, i);
  }

  lemma SumByAppend<T>(xs: seq<T>, f: T -> int, x: T)
    ensures SumBy(xs + [x], f) == SumBy(xs, f) + f(x)
  {
    assert (xs + [x])[..|xs|] == xs;
  }

  lemma SumByConcat<T>(xs: seq<T>, ys: seq<T>, f: T -> int)
    ensures SumBy(xs + ys, f) == SumBy(xs, f) + SumBy(ys, f)
  {
    if ys == [] {
      assert xs + ys == xs;
    } else {
      SumByConcat(xs, ys[..|ys| - 1], f);
      assert (xs + ys)[..|xs + ys| - 1] == xs + ys[..|ys| - 1];
    }
  }

  lemma SumByRemove<T>(xs: seq<T>, k: nat, f: T -> int)
    requires k < |xs|
    ensures SumBy(xs, f) == f(xs[k]) + SumBy(xs[..k] + xs[k + 1..], f)
  {
    assert xs == xs[..k + 1] + xs[k + 1..];
    SumByConcat(xs[..k + 1], xs[k + 1..], f);
    SumByStep(xs, f, k);
    SumByConcat(xs[..k], xs[k + 1..], f);
  }

  lemma MultisetRemove<T>(xs: seq<T>, k: nat)
    requires k < |xs|
    ensures multiset(xs[..k] + xs[k + 1..]) == multiset(xs) - multiset{xs[k]}
  {
    assert xs == xs[..k] + [xs[k]] + xs[k + 1..];
  }

  /** The place of some listing's first element in another listing of the same elements. */
  lemma PermutesHead<T>(xs: seq<T>, ys: seq<T>) returns (k: nat)
    requires Permutes(xs, ys) && xs != []
    ensures k < |ys| && ys[k] == xs[0] && Permutes(xs[1..], ys[..k] + ys[k + 1..])
  {
    assert xs[0] in multiset(ys);
    k :| 0 <= k < |ys| && ys[k] == xs[0];
    MultisetRemove(ys, k);
    MultisetTail(xs);
  }

  lemma MultisetTail<T>(xs: seq<T>)
    requires xs != []
    ensures multiset(xs[1..]) == multiset(xs) - multiset{xs[0]}
  {
    assert xs == [xs[0]] + xs[1..];
  }

  lemma MultisetRest<T>(xs: seq<T>, k: nat)
    requires k < |xs|
    ensures multiset(xs) == multiset{xs[k]} + multiset(xs[..k] + xs[k + 1..])
  {
    MultisetRemove(xs, k);
    assert xs[k] in multiset(xs);
  }

  lemma MapRemove<A, B>(f: A -> B, xs: seq<A>, k: nat)
    requires k < |xs|
    ensures Map(f, xs)[..k] + Map(f, xs)[k + 1..] == Map(f, xs[..k] + xs[k + 1..])
  {
  }

  /** Mapping permuted sequences gives permuted sequences. */
  lemma {:induction false} MapPermutes<A, B>(f: A -> B, xs: seq<A>, ys: seq<A>)
    requires Permutes(xs, ys)
    ensures Permutes(Map(f, xs), Map(f, ys))
    decreases |xs|
  {
    if xs == [] {
      assert |multiset(ys)| == 0;
    } else {
      var k := PermutesHead(xs, ys);
      var rest := ys[..k] + ys[k + 1..];
      MapPermutes(f, xs[1..], rest);
      MapRemove(f, ys, k);
      MultisetRest(Map(f, ys), k);
      assert Map(f, xs) == [f(xs[0])] + Map(f, xs[1..]);
      assert multiset(Map(f, xs)) == multiset{f(xs[0])} + multiset(Map(f, xs[1..]));
      assert multiset(Map(f, ys)) == multiset{f(xs[0])} + multiset(Map(f, rest));
    }
  }

  /** A sum does not depend on the order of its terms. */
  lemma {:induction false} SumByPermutation<T>(xs: seq<T>, ys: seq<T>, f: T -> int)
    requires Permutes(xs, ys)
    ensures SumBy(xs, f) == SumBy(ys, f)
  {
    if xs == [] {
      assert |multiset(ys)| == 0;
    } else {
      var k := PermutesHead(xs, ys);
      SumByRemove(ys, k, f);
      SumByRemove(xs, 0, f);
      assert xs[..0] + xs[1..] == xs[1..];
      SumByPermutation(xs[1..], ys[..k] + ys[k + 1..], f);
    }
  }

  lemma {:induction false} SumByCongruent<T>(xs: seq<T>, f: T -> int, g: T -> int)
    requires forall i :: 0 <= i < |xs| ==> f(xs[i]) == g(xs[i])
    ensures SumBy(xs, f) == SumBy(xs, g)
  {
    if xs != [] {
      SumByCongruent(xs[..|xs| - 1], f, g);
    }
  }

  lemma {:induction false} SumByPairs<A, B>(xs: seq<A>, f: A -> int, ys: seq<B>, g: B -> int)
    requires |xs| == |ys| && forall i :: 0 <= i < |xs| ==> f(xs[i]) == g(ys[i])
    ensures SumBy(xs, f) == SumBy(ys, g)
  {
    if xs != [] {
      SumByPairs(xs[..|xs| - 1], f, ys[..|ys| - 1], g);
    }
  }

  /** Each of the ys is what its x stands for. */
  ghost predicate Pairwise<A, B>(rel: (A, B) -> bool, xs: seq<A>, ys: seq<B>) {
    |xs| == |ys| && forall i :: 0 <= i < |xs| ==> rel(xs[i], ys[i])
  }

  lemma PairwiseAppend<A, B>(rel: (A, B) -> bool, xs: seq<A>, ys: seq<B>, x: A, y: B)
    requires Pairwise(rel, xs, ys) && rel(x, y)
    ensures Pairwise(rel, xs + [x], ys + [y])
  {
  }

  lemma PairwiseConcat<A, B>(rel: (A, B) -> bool, xs: seq<A>, ys: seq<B>, xs': seq<A>, ys': seq<B>)
    requires Pairwise(rel, xs, ys) && Pairwise(rel, xs', ys')
    ensures Pairwise(rel, xs + xs', ys + ys')
  {
  }

  /** Listing the ys in another order, the xs can be listed to match. */
  lemma {:induction false} PairsRelist<A, B>(rel: (A, B) -> bool, xs: seq<A>, ys: seq<B>, ys': seq<B>)
    returns (xs': seq<A>)
    requires Pairwise(rel, xs, ys) && Permutes(ys', ys)
    ensures Pairwise(rel, xs', ys') && Permutes(xs', xs)
    decreases |ys'|
  {
    PermutesMembers(ys', ys);
    if ys' == [] {
      xs' := [];
    } else {
      var k := PermutesHead(ys', ys);
      var rest := PairsRelist(rel, xs[..k] + xs[k + 1..], ys[..k] + ys[k + 1..], ys'[1..]);
      xs' := [xs[k]] + rest;
      MultisetRest(xs, k);
    }
  }

  /** What x stands for, among the pairs of xs and ys. */
  ghost function ValueAt<A, B>(xs: seq<A>, ys: seq<B>, x: A): B
    requires |xs| == |ys| && x in xs
  {
    var i :| 0 <= i < |xs| && xs[i] == x;
    ys[i]
  }

  lemma ValueAtIs<A, B>(xs: seq<A>, ys: seq<B>, x: A, y: B)
    requires |xs| == |ys| && x in xs && forall i :: 0 <= i < |xs| && xs[i] == x ==> ys[i] == y
    ensures ValueAt(xs, ys, x) == y
  {
  }

  /** Where an x stands for one y only, listing the xs in another order lists the ys in another order. */
  lemma PairsPermute<A, B>(xs: seq<A>, ys: seq<B>, xs': seq<A>, ys': seq<B>)
    requires |xs| == |ys| && |xs'| == |ys'| && Permutes(xs, xs')
    requires forall i, k :: 0 <= i < |xs| && 0 <= k < |xs'| && xs[i] == xs'[k] ==> ys[i] == ys'[k]
    ensures Permutes(ys, ys')
  {
    PermutesMembers(xs, xs');
    if xs != [] {
      var f := x => if x in xs then ValueAt(xs, ys, x) else ys[0];
      forall k | 0 <= k < |xs'| ensures ys'[k] == f(xs'[k]) {
        assert xs'[k] in xs';
        ValueAtIs(xs, ys, xs'[k], ys'[k]);
      }
      forall k | 0 <= k < |xs| ensures ys[k] == f(xs[k]) {
        assert xs[k] in xs;
        var j :| 0 <= j < |xs'| && xs'[j] == xs[k];
        ValueAtIs(xs, ys, xs[k], ys'[j]);
      }
      assert ys == Map(f, xs) && ys' == Map(f, xs');
      MapPermutes(f, xs, xs');
    }
  }

  lemma DistinctAppend<T(!new)>(xs: seq<T>, x: T)
    requires Distinct(xs) && x !in xs
    ensures Distinct(xs + [x])
    ensures forall y :: y in xs + [x] <==> y in xs || y == x
  {
  }

  lemma DistinctMultiplicity<T(!new)>(xs: seq<T>, x: T)
    requires Distinct(xs)
    ensures multiset(xs)[x] == if x in xs then 1 else 0
  {
    if xs != [] {
      assert xs == [xs[0]] + xs[1..];
      DistinctMultiplicity(xs[1..], x);
    }
  }

  lemma TwiceIn<T>(xs: seq<T>, i: nat, j: nat)
    requires i < j < |xs| && xs[i] == xs[j]
    ensures multiset(xs)[xs[i]] >= 2
  {
    assert xs == xs[..i] + [xs[i]] + xs[i + 1..j] + [xs[j]] + xs[j + 1..];
  }

  lemma PermutesDistinct<T(!new)>(xs: seq<T>, ys: seq<T>)
    requires Permutes(xs, ys) && Distinct(ys)
    ensures Distinct(xs)
  {
    forall i, j | 0 <= i < j < |xs| ensures xs[i] != xs[j] {
      if xs[i] == xs[j] {
        TwiceIn(xs, i, j);
        DistinctMultiplicity(ys, xs[i]);
      }
    }
  }

  /** Two duplicate-free listings of the same elements are permutations of each other. */
  lemma DistinctPermutes<T(!new)>(xs: seq<T>, ys: seq<T>)
    requires Distinct(xs) && Distinct(ys)
    requires forall x :: x in xs <==> x in ys
    ensures Permutes(xs, ys)
  {
    forall x: T ensures multiset(xs)[x] == multiset(ys)[x] {
      DistinctMultiplicity(xs, x);
      DistinctMultiplicity(ys, x);
    }
  }

  /** What each element stands for, one after the other. */
  function FlatBy<A, B>(xs: seq<A>, f: A -> seq<B>): seq<B> {
    if xs == [] then [] else FlatBy(xs[..|xs| - 1], f) + f(xs[|xs| - 1])
  }

  lemma {:induction false} FlatByConcat<A, B>(xs: seq<A>, ys: seq<A>, f: A -> seq<B>)
    ensures FlatBy(xs + ys, f) == FlatBy(xs, f) + FlatBy(ys, f)
  {
    if ys == [] {
      assert xs + ys == xs;
    } else {
      FlatByConcat(xs, ys[..|ys| - 1], f);
      assert (xs + ys)[..|xs + ys| - 1] == xs + ys[..|ys| - 1];
    }
  }

  lemma {:induction false} FlatByRemove<A, B>(xs: seq<A>, k: nat, f: A -> seq<B>)
    requires k < |xs|
    ensures multiset(FlatBy(xs, f)) == multiset(f(xs[k])) + multiset(FlatBy(xs[..k] + xs[k + 1..], f))
  {
    assert xs == xs[..k] + [xs[k]] + xs[k + 1..];
    FlatByConcat(xs[..k] + [xs[k]], xs[k + 1..], f);
    FlatByConcat(xs[..k], [xs[k]], f);
    FlatByConcat(xs[..k], xs[k + 1..], f);
    assert FlatBy([xs[k]], f) == [] + f(xs[k]);
  }

  /** The order of the parts does not matter to what there is of everything. */
  lemma {:induction false} FlatByPermutes<A, B>(xs: seq<A>, ys: seq<A>, f: A -> seq<B>)
    requires Permutes(xs, ys)
    ensures Permutes(FlatBy(xs, f), FlatBy(ys, f))
  {
    if xs == [] {
      assert |multiset(ys)| == 0;
    } else {
      var k := PermutesHead(xs, ys);
      FlatByRemove(ys, k, f);
      FlatByRemove(xs, 0, f);
      assert xs[..0] + xs[1..] == xs[1..];
      FlatByPermutes(xs[1..], ys[..k] + ys[k + 1..], f);
    }
  }

  function Filter<T>(xs: seq<T>, keep: T -> bool): seq<T> {
    if xs == [] then []
    else if keep(xs[|xs| - 1]) then Filter(xs[..|xs| - 1], keep) + [xs[|xs| - 1]]
    else Filter(xs[..|xs| - 1], keep)
  }

  lemma FilterStep<T>(xs: seq<T>, keep: T -> bool, i: nat)
    requires i < |xs|
    ensures Filter(xs[..i + 1], keep) == if keep(xs[i]) then Filter(xs[..i], keep) + [xs[i]] else Filter(xs[..i], keep)
  {
    PrefixStep(xs, i);
  }

  lemma FilterAppend<T>(xs: seq<T>, keep: T -> bool, x: T)
    ensures Filter(xs + [x], keep) == if keep(x) then Filter(xs, keep) + [x] else Filter(xs, keep)
  {
    assert (xs + [x])[..|xs|] == xs;
  }

  lemma FilterSum<T>(xs: seq<T>, keep: T -> bool, f: T -> int)
    requires xs != []
    ensures SumBy(Filter(xs, keep), f) ==
            SumBy(Filter(xs[..|xs| - 1], keep), f) + if keep(xs[|xs| - 1]) then f(xs[|xs| - 1]) else 0
  {
    SumByAppend(Filter(xs[..|xs| - 1], keep), f, xs[|xs| - 1]);
  }

  lemma {:induction false} FilterEmpty<T>(xs: seq<T>, keep: T -> bool)
    requires forall x :: x in xs ==> !keep(x)
    ensures Filter(xs, keep) == []
  {
    if xs != [] {
      FilterEmpty(xs[..|xs| - 1], keep);
    }
  }

  lemma {:induction false} FilterFront<T>(xs: seq<T>, ys: seq<T>, keep: T -> bool)
    requires (forall x :: x in xs ==> keep(x)) && (forall y :: y in ys ==> !keep(y))
    ensures Filter(xs + ys, keep) == xs
  {
    if ys != [] {
      var n := |ys| - 1;
      FilterFront(xs, ys[..n], keep);
      assert (xs + ys)[..|xs + ys| - 1] == xs + ys[..n] && ys[n] in ys;
    } else {
      assert xs + ys == xs;
      if xs != [] {
        var n := |xs| - 1;
        FilterFront(xs[..n], [], keep);
        assert xs[..n] + [] == xs[..n] && xs[n] in xs;
      }
    }
  }

  lemma {:induction false} FilterMembers<T>(xs: seq<T>, keep: T -> bool, x: T)
    ensures x in Filter(xs, keep) <==> x in xs && keep(x)
  {
    if xs != [] {
      FilterMembers(xs[..|xs| - 1], keep, x);
      assert xs == xs[..|xs| - 1] + [xs[|xs| - 1]];
    }
  }

  lemma {:induction false} FilterCount<T>(xs: seq<T>, keep: T -> bool, x: T)
    ensures multiset(Filter(xs, keep))[x] == if keep(x) then multiset(xs)[x] else 0
  {
    if xs != [] {
      FilterCount(xs[..|xs| - 1], keep, x);
      assert xs == xs[..|xs| - 1] + [xs[|xs| - 1]];
    }
  }

  lemma FilterPermutes<T(!new)>(xs: seq<T>, ys: seq<T>, keep: T -> bool)
    requires Permutes(xs, ys)
    ensures Permutes(Filter(xs, keep), Filter(ys, keep))
  {
    forall x: T ensures multiset(Filter(xs, keep))[x] == multiset(Filter(ys, keep))[x] {
      FilterCount(xs, keep, x);
      FilterCount(ys, keep, x);
    }
  }

  /** The elements filed under k. */
  function Bucket<T, K(==)>(xs: seq<T>, key: T -> K, k: K): seq<T> {
    Filter(xs, x => key(x) == k)
  }

  lemma BucketAppend<T, K>(xs: seq<T>, key: T -> K, k: K, x: T)
    ensures Bucket(xs + [x], key, k) == if key(x) == k then Bucket(xs, key, k) + [x] else Bucket(xs, key, k)
  {
    FilterAppend(xs, y => key(y) == k, x);
  }

  lemma BucketMembers<T, K>(xs: seq<T>, key: T -> K, k: K, x: T)
    ensures x in Bucket(xs, key, k) <==> x in xs && key(x) == k
  {
    FilterMembers(xs, y => key(y) == k, x);
  }

  lemma BucketCount<T, K>(xs: seq<T>, key: T -> K, k: K, x: T)
    ensures multiset(Bucket(xs, key, k))[x] == if key(x) == k then multiset(xs)[x] else 0
  {
    FilterCount(xs, y => key(y) == k, x);
  }

  lemma BucketEmpty<T, K>(xs: seq<T>, key: T -> K, k: K)
    requires forall x :: x in xs ==> key(x) != k
    ensures Bucket(xs, key, k) == []
  {
    FilterEmpty(xs, x => key(x) == k);
  }

  lemma BucketLast<T, K>(xs: seq<T>, key: T -> K, k: K)
    requires xs != []
    ensures var front, x := xs[..|xs| - 1], xs[|xs| - 1];
            Bucket(xs, key, k) == if key(x) == k then Bucket(front, key, k) + [x] else Bucket(front, key, k)
  {
    FilterStep(xs, x => key(x) == k, |xs| - 1);
    assert xs[..|xs|] == xs;
  }

  lemma {:induction false} SumByBump<K(!new)>(ks: seq<K>, f: K -> int, g: K -> int, k: K, d: int)
    requires Distinct(ks) && k in ks
    requires forall j :: j != k ==> g(j) == f(j)
    requires g(k) == f(k) + d
    ensures SumBy(ks, g) == SumBy(ks, f) + d
  {
    var x :| 0 <= x < |ks| && ks[x] == k;
    var rest := ks[..x] + ks[x + 1..];
    SumByRemove(ks, x, f);
    SumByRemove(ks, x, g);
    SumByCongruent(rest, f, g);
  }

  /** Filing loses nothing: the totals of the buckets add up to the total of all. */
  lemma {:induction false} BucketTotals<T(!new), K(!new)>(xs: seq<T>, key: T -> K, f: T -> int, ks: seq<K>)
    requires Distinct(ks) && forall x :: x in xs ==> key(x) in ks
    ensures SumBy(ks, k => SumBy(Bucket(xs, key, k), f)) == SumBy(xs, f)
  {
    var total := k => SumBy(Bucket(xs, key, k), f);
    if xs == [] {
      SumByZero(ks, total);
    } else {
      var front, x := xs[..|xs| - 1], xs[|xs| - 1];
      var before := k => SumBy(Bucket(front, key, k), f);
      BucketTotals(front, key, f, ks);
      assert x in xs;
      forall k ensures total(k) == before(k) + if k == key(x) then f(x) else 0 {
        BucketLast(xs, key, k);
        SumByStep(Bucket(front, key, k) + [x], f, |Bucket(front, key, k)|);
        assert (Bucket(front, key, k) + [x])[..|Bucket(front, key, k)|] == Bucket(front, key, k);
        assert (Bucket(front, key, k) + [x])[..|Bucket(front, key, k)| + 1] == Bucket(front, key, k) + [x];
      }
      SumByBump(ks, before, total, key(x), f(x));
    }
  }

  lemma {:induction false} SumByZero<T>(xs: seq<T>, f: T -> int)
    requires forall i :: 0 <= i < |xs| ==> f(xs[i]) == 0
    ensures SumBy(xs, f) == 0
  {
    if xs != [] {
      SumByZero(xs[..|xs| - 1], f);
    }
  }

  /** The order in which a `for ... range` loop visits a map: callers learn only that it lists every key once. */
  method IterationOrder<K(==, !new)>(keys: set<K>) returns (ks: seq<K>)
    ensures Distinct(ks)
    ensures forall k :: k in ks <==> k in keys
  {
    ks := [];
    var rest := keys;
    while rest != {}
      invariant rest <= keys
      invariant Distinct(ks)
      invariant forall k :: k in keys <==> k in ks || k in rest
      invariant forall k :: k in ks ==> k !in rest
      decreases rest
    {
      var k :| k in rest;
      ks := ks + [k];
      rest := rest - {k};
    }
  }

  // ---- Sorting -------------------------------------------------------------

  /** A strict weak order: asymmetric, and "not after" is transitive. */
  ghost predicate WeakOrder<T(!new)>(less: (T, T) -> bool) {
    && (forall x, y :: less(x, y) ==> !less(y, x))
    && (forall x, y, z :: !less(y, x) && !less(z, y) ==> !less(z, x))
  }

  ghost predicate Sorted<T(!new)>(xs: seq<T>, less: (T, T) -> bool) {
    forall i, j :: 0 <= i < j < |xs| ==> !less(xs[j], xs[i])
  }

  function Insert<T>(xs: seq<T>, x: T, less: (T, T) -> bool): (r: seq<T>)
    ensures |r| == |xs| + 1
  {
    if xs == [] then [x]
    else if less(x, xs[|xs| - 1]) then Insert(xs[..|xs| - 1], x, less) + [xs[|xs| - 1]]
    else xs + [x]
  }

  /** Stable insertion sort. */
  function StableSort<T>(xs: seq<T>, less: (T, T) -> bool): (r: seq<T>)
    ensures |r| == |xs|
  {
    if xs == [] then [] else Insert(StableSort(xs[..|xs| - 1], less), xs[|xs| - 1], less)
  }

  lemma InsertPermutes<T>(xs: seq<T>, x: T, less: (T, T) -> bool)
    ensures Permutes(Insert(xs, x, less), xs + [x])
  {
    if xs != [] && less(x, xs[|xs| - 1]) {
      InsertPermutes(xs[..|xs| - 1], x, less);
      assert xs == xs[..|xs| - 1] + [xs[|xs| - 1]];
    }
  }

  lemma StableSortPermutes<T>(xs: seq<T>, less: (T, T) -> bool)
    ensures Permutes(StableSort(xs, less), xs)
  {
    if xs != [] {
      StableSortPermutes(xs[..|xs| - 1], less);
      InsertPermutes(StableSort(xs[..|xs| - 1], less), xs[|xs| - 1], less);
      assert xs == xs[..|xs| - 1] + [xs[|xs| - 1]];
    }
  }

  lemma PermutesMembers<T>(xs: seq<T>, ys: seq<T>)
    requires Permutes(xs, ys)
    ensures |xs| == |ys|
    ensures forall x :: x in xs <==> x in ys
  {
    assert forall x :: x in xs <==> x in multiset(xs);
    assert forall x :: x in ys <==> x in multiset(ys);
    assert |xs| == |multiset(xs)| == |multiset(ys)| == |ys|;
  }

  lemma InsertSorted<T(!new)>(xs: seq<T>, x: T, less: (T, T) -> bool)
    requires WeakOrder(less) && Sorted(xs, less)
    ensures Sorted(Insert(xs, x, less), less)
  {
    if xs != [] {
      var last := xs[|xs| - 1];
      if less(x, last) {
        var front := xs[..|xs| - 1];
        InsertSorted(front, x, less);
        InsertPermutes(front, x, less);
        PermutesMembers(Insert(front, x, less), front + [x]);
        var r := Insert(front, x, less);
        forall i | 0 <= i < |r| ensures !less(last, r[i]) {
          assert r[i] in front + [x];
        }
      }
    }
  }

  lemma StableSortSorted<T(!new)>(xs: seq<T>, less: (T, T) -> bool)
    requires WeakOrder(less)
    ensures Sorted(StableSort(xs, less), less)
  {
    if xs != [] {
      StableSortSorted(xs[..|xs| - 1], less);
      InsertSorted(StableSort(xs[..|xs| - 1], less), xs[|xs| - 1], less);
    }
  }

  lemma {:induction false} FilterSorted<T(!new)>(xs: seq<T>, keep: T -> bool, less: (T, T) -> bool)
    requires Sorted(xs, less)
    ensures Sorted(Filter(xs, keep), less)
  {
    if xs != [] {
      var front, last := xs[..|xs| - 1], xs[|xs| - 1];
      FilterSorted(front, keep, less);
      forall x | x in Filter(front, keep) ensures !less(last, x) {
        FilterMembers(front, keep, x);
        var i :| 0 <= i < |front| && front[i] == x;
        assert xs[i] == x;
      }
    }
  }

  lemma SortedHeadsAgree<T(!new)>(xs: seq<T>, ys: seq<T>, less: (T, T) -> bool)
    requires Permutes(xs, ys) && Sorted(xs, less) && Sorted(ys, less) && xs != [] && ys != []
    ensures xs[0] in ys && ys[0] in xs
    ensures xs[0] == ys[0] || (!less(xs[0], ys[0]) && !less(ys[0], xs[0]))
  {
    PermutesMembers(xs, ys);
    assert xs[0] in xs && ys[0] in ys;
    var i :| 0 <= i < |ys| && ys[i] == xs[0];
    var j :| 0 <= j < |xs| && xs[j] == ys[0];
  }

  lemma PermutesTail<T>(xs: seq<T>, ys: seq<T>)
    requires Permutes(xs, ys) && xs != [] && ys != [] && xs[0] == ys[0]
    ensures Permutes(xs[1..], ys[1..])
  {
    MultisetTail(xs);
    MultisetTail(ys);
  }

  /** The elements of xs that tie are equal. */
  ghost predicate Separates<T(!new)>(less: (T, T) -> bool, xs: seq<T>) {
    forall i, j :: 0 <= i < |xs| && 0 <= j < |xs| && !less(xs[i], xs[j]) && !less(xs[j], xs[i]) ==> xs[i] == xs[j]
  }

  /** A comparator that separates all the elements leaves only one sorted arrangement of them. */
  lemma {:induction false} SortedUnique<T(!new)>(xs: seq<T>, ys: seq<T>, less: (T, T) -> bool)
    requires Permutes(xs, ys) && Sorted(xs, less) && Sorted(ys, less) && Separates(less, xs)
    ensures xs == ys
  {
    PermutesMembers(xs, ys);
    if xs != [] {
      SortedHeadsAgree(xs, ys, less);
      assert xs[0] == ys[0] by {
        var j :| 0 <= j < |xs| && xs[j] == ys[0];
      }
      PermutesTail(xs, ys);
      SortedUnique(xs[1..], ys[1..], less);
    }
  }

  /** `sort.Slice`: some sorted arrangement. Which one, when elements tie, is not promised. */
  method Sort<T(!new)>(xs: seq<T>, less: (T, T) -> bool) returns (ys: seq<T>)
    requires WeakOrder(less)
    ensures Permutes(ys, xs) && Sorted(ys, less)
  {
    ys := StableSort(xs, less);
    StableSortPermutes(xs, less);
    StableSortSorted(xs, less);
  }
}
