/** When what groupPatterns (problems.go) puts together depends on the order of its rows, any order at all. */
module OrderLaws {
  import opened Clock
  import opened Sequences
  import opened Strings
  import opened UnionFind
  import opened Problems
  import opened Patterns
  import opened PatternLaws

  // ---- The start window in 64-bit arithmetic -------------------------------

  const HALF_RANGE := 0x8000_0000_0000_0000

  /** Within the window, or so long before that the difference saturates and its negation overflows. */
  lemma StartedTogetherExactly(a: Time, b: Time)
    ensures StartedTogether(a, b) <==> -PATTERN_START_WINDOW <= a - b <= PATTERN_START_WINDOW || b - a >= HALF_RANGE
  {
  }

  /** The answer is the same in both orders exactly for times less than 2^63 nanoseconds apart. */
  lemma StartedTogetherSymmetric(a: Time, b: Time)
    ensures (StartedTogether(a, b) <==> StartedTogether(b, a)) <==> -HALF_RANGE < a - b < HALF_RANGE
  {
    StartedTogetherExactly(a, b);
    StartedTogetherExactly(b, a);
  }

  /** The rules that need no clock: same namespace and other tiers never link, the same workload failing
      the same way always does. */
  predicate ClockDecides(a: Problem, b: Problem) {
    Home(a) != Home(b) && a.tier == b.tier && !(a.title == b.title && Primary(a) == Primary(b))
  }

  /** The order of two rows matters exactly when only the clock can link them and it saturates. */
  lemma PairOrderMattersExactly(a: Problem, b: Problem)
    ensures (PairRule(a, b) <==> PairRule(b, a)) <==>
            (ClockDecides(a, b) ==> -HALF_RANGE < a.firstSeen - b.firstSeen < HALF_RANGE)
  {
    StartedTogetherSymmetric(a.firstSeen, b.firstSeen);
  }

  /** A row without any event time and a recent row, in two namespaces and both chronic: listed in this
      order they are merged, listed in the other order they are not. */
  lemma OrderMattersForZeroTimes(a: Problem, b: Problem, now: Time)
    requires a.scope == Namespace && b.scope == Namespace && ClockDecides(a, b) && Primary(a) !in INFRA_REASONS
    requires a.firstSeen == ZERO_TIME && b.firstSeen >= HALF_RANGE
    requires TierAt(now, a.firstSeen) == a.tier && TierAt(now, b.firstSeen) == b.tier
    ensures Merged([a, b], 0) && Merged([a, b], 1)
    ensures !Merged([b, a], 0) && !Merged([b, a], 1)
  {
    StartedTogetherExactly(a.firstSeen, b.firstSeen);
    StartedTogetherExactly(b.firstSeen, a.firstSeen);
    var ps := [a, b];
    assert LinkRule(ps, 0, 1);
    assert (0, 1) in Links(ps);
    ConnectedLink(Links(ps), 0, 1);
    ConnectedSym(Links(ps), 0, 1);
    assert SameCause(ps, 0, 1) && SameCause(ps, 1, 0);
    TwoRowsApart(b, a);
  }

  lemma TwoRowsApart(b: Problem, a: Problem)
    requires a.scope == Namespace && b.scope == Namespace && !PairRule(b, a)
    requires Home(a) != Home(b)
    requires Primary(a) !in INFRA_REASONS
    ensures !Merged([b, a], 0) && !Merged([b, a], 1)
  {
    var ps := [b, a];
    var side := (k: nat) => k == 0;
    forall l | l in Links(ps) ensures side(l.0) == side(l.1) {
      assert LinkRule(ps, l.0, l.1);
    }
    forall i: nat, j: nat | SameCause(ps, i, j) ensures Home(ps[i]) == Home(ps[j]) {
      ConnectedInvariant(Links(ps), side, i, j);
    }
  }

  // ---- Rows in another order -----------------------------------------------

  ghost predicate DistinctKeys(ps: seq<Problem>) {
    forall i, j :: 0 <= i < j < |ps| ==> ps[i].key != ps[j].key
  }

  /** The keys KubeHealth gives its rows: distinct, not those of a pattern, and for namespace rows
      without the comma that joins a pattern's keys. */
  ghost predicate KeysOk(ps: seq<Problem>) {
    && DistinctKeys(ps)
    && (forall p :: p in ps ==> p.scope != Pattern && !(PATTERN_PREFIX <= p.key))
    && (forall p :: p in ps && p.scope == Namespace ==> ',' !in p.key)
  }

  ghost function IndexOf(qs: seq<Problem>, p: Problem): (k: nat)
    requires p in qs
    ensures k < |qs| && qs[k] == p
  {
    var k: nat :| k < |qs| && qs[k] == p;
    k
  }

  /** Where row i of ps is listed in qs. */
  ghost function Moved(ps: seq<Problem>, qs: seq<Problem>): nat -> nat
    requires Permutes(ps, qs)
  {
    PermutesMembers(ps, qs);
    (i: nat) => if 0 <= i < |ps| then IndexOf(qs, ps[i]) else i
  }

  lemma SameKeySameRow(ps: seq<Problem>, p: Problem, q: Problem)
    requires DistinctKeys(ps) && p in ps && q in ps && p.key == q.key
    ensures p == q
  {
  }

  lemma DistinctRows(ps: seq<Problem>)
    requires DistinctKeys(ps)
    ensures Distinct(ps)
  {
  }

  lemma MovedRow(ps: seq<Problem>, qs: seq<Problem>, i: nat)
    requires Permutes(ps, qs) && i < |ps|
    ensures Moved(ps, qs)(i) < |qs| && qs[Moved(ps, qs)(i)] == ps[i]
  {
    PermutesMembers(ps, qs);
  }

  lemma SameBucket(ps: seq<Problem>, qs: seq<Problem>, r: string, t: Tier)
    requires Permutes(ps, qs)
    ensures BucketHomes(ps, r, t) <= BucketHomes(qs, r, t)
  {
    forall h | h in BucketHomes(ps, r, t) ensures h in BucketHomes(qs, r, t) {
      var i: nat :| i < |ps| && InBucket(ps, r, t, i) && Home(ps[i]) == h;
      MovedRow(ps, qs, i);
      assert InBucket(qs, r, t, Moved(ps, qs)(i));
    }
  }

  // ---- Links that hold in every order --------------------------------------

  /** The pair rule links the two rows whichever is listed first, or the infrastructure rule does. */
  ghost predicate FirmRule(ps: seq<Problem>, i: nat, j: nat) {
    && IsRow(ps, i) && IsRow(ps, j)
    && ((PairRule(ps[i], ps[j]) && PairRule(ps[j], ps[i])) || InfraRule(ps, i, j))
  }

  ghost function Firm(ps: seq<Problem>): set<(nat, nat)> {
    set i: nat, j: nat | i < |ps| && j < |ps| && FirmRule(ps, i, j) :: (i, j)
  }

  /** Every two rows that the pair rule links in one order are together by links that hold in every order. */
  ghost predicate OrderFree(ps: seq<Problem>) {
    forall i: nat, j: nat :: IsRow(ps, i) && IsRow(ps, j) && PairRule(ps[i], ps[j]) ==> Connected(Firm(ps), i, j)
  }

  lemma FirmIsLinked(ps: seq<Problem>, i: nat, j: nat)
    requires Connected(Firm(ps), i, j)
    ensures Connected(Links(ps), i, j)
  {
    forall l | l in Firm(ps) ensures Connected(Links(ps), l.0, l.1) {
      assert FirmRule(ps, l.0, l.1);
      assert LinkRule(ps, l.0, l.1) || LinkRule(ps, l.1, l.0);
      assert (l.0, l.1) in Links(ps) || (l.1, l.0) in Links(ps);
      ConnectedLink(Links(ps), l.0, l.1);
    }
    ConnectedAbsorb(Links(ps), Firm(ps), i, j);
  }

  lemma FirmMoves(ps: seq<Problem>, qs: seq<Problem>, i: nat, j: nat)
    requires Permutes(ps, qs) && FirmRule(ps, i, j)
    ensures FirmRule(qs, Moved(ps, qs)(i), Moved(ps, qs)(j))
  {
    var a, b := Moved(ps, qs)(i), Moved(ps, qs)(j);
    MovedRow(ps, qs, i);
    MovedRow(ps, qs, j);
    if !(PairRule(ps[i], ps[j]) && PairRule(ps[j], ps[i])) {
      SameBucket(ps, qs, Primary(ps[i]), ps[i].tier);
      SameBucket(qs, ps, Primary(ps[i]), ps[i].tier);
      assert BucketHomes(qs, Primary(qs[a]), qs[a].tier) == BucketHomes(ps, Primary(ps[i]), ps[i].tier);
      assert InfraRule(qs, a, b);
    }
  }

  /** What firm links put together they put together in every order. */
  lemma FirmCauseMoves(ps: seq<Problem>, qs: seq<Problem>, i: nat, j: nat)
    requires Permutes(ps, qs) && Connected(Firm(ps), i, j)
    ensures Connected(Firm(qs), Moved(ps, qs)(i), Moved(ps, qs)(j))
  {
    var to := Moved(ps, qs);
    forall l | l in Firm(ps) ensures Connected(Firm(qs), to(l.0), to(l.1)) {
      FirmMoves(ps, qs, l.0, l.1);
      MovedRow(ps, qs, l.0);
      MovedRow(ps, qs, l.1);
      assert (to(l.0), to(l.1)) in Firm(qs);
      ConnectedLink(Firm(qs), to(l.0), to(l.1));
    }
    ConnectedMap(Firm(ps), Firm(qs), to, i, j);
  }

  /** Where every linked pair is together by firm links, so is everything. */
  lemma LinkedIsFirm(ps: seq<Problem>, i: nat, j: nat)
    requires forall a: nat, b: nat :: a < b && IsRow(ps, a) && IsRow(ps, b) && PairRule(ps[a], ps[b]) ==>
        Connected(Firm(ps), a, b)
    requires Connected(Links(ps), i, j)
    ensures Connected(Firm(ps), i, j)
  {
    forall l | l in Links(ps) ensures Connected(Firm(ps), l.0, l.1) {
      assert LinkRule(ps, l.0, l.1);
      if InfraRule(ps, l.0, l.1) {
        assert (l.0, l.1) in Firm(ps);
        ConnectedLink(Firm(ps), l.0, l.1);
      }
    }
    ConnectedAbsorb(Firm(ps), Links(ps), i, j);
  }

  // ---- When the order of the rows matters ----------------------------------

  /** The two listings put the same rows together. */
  ghost predicate SameGroups(ps: seq<Problem>, qs: seq<Problem>)
    requires Permutes(ps, qs)
  {
    forall i: nat, j: nat {:trigger SameCause(ps, i, j)} :: i < |ps| && j < |ps| ==>
      (SameCause(ps, i, j) <==> SameCause(qs, Moved(ps, qs)(i), Moved(ps, qs)(j)))
  }

  ghost predicate SameInEveryOrder(ps: seq<Problem>) {
    forall qs :: Permutes(ps, qs) ==> SameGroups(ps, qs)
  }

  lemma KeysMove(ps: seq<Problem>, qs: seq<Problem>)
    requires Permutes(ps, qs) && DistinctKeys(ps)
    ensures DistinctKeys(qs)
  {
    PermutesMembers(ps, qs);
    forall i, j | 0 <= i < j < |qs| ensures qs[i].key != qs[j].key {
      if qs[i].key == qs[j].key {
        SameKeySameRow(ps, qs[i], qs[j]);
        TwiceIn(qs, i, j);
        DistinctRows(ps);
        DistinctMultiplicity(ps, qs[i]);
      }
    }
  }

  lemma MovedBack(ps: seq<Problem>, qs: seq<Problem>, i: nat)
    requires Permutes(ps, qs) && DistinctKeys(ps) && i < |ps|
    ensures Moved(ps, qs)(i) < |qs| && Moved(qs, ps)(Moved(ps, qs)(i)) == i
  {
    MovedRow(ps, qs, i);
    MovedRow(qs, ps, Moved(ps, qs)(i));
  }

  lemma OrderFreeMoves(ps: seq<Problem>, qs: seq<Problem>)
    requires Permutes(ps, qs) && DistinctKeys(ps) && OrderFree(ps)
    ensures OrderFree(qs)
  {
    KeysMove(ps, qs);
    forall a: nat, b: nat | IsRow(qs, a) && IsRow(qs, b) && PairRule(qs[a], qs[b]) ensures Connected(Firm(qs), a, b) {
      var i, j := Moved(qs, ps)(a), Moved(qs, ps)(b);
      MovedRow(qs, ps, a);
      MovedRow(qs, ps, b);
      assert IsRow(ps, i) && IsRow(ps, j);
      FirmCauseMoves(ps, qs, i, j);
      MovedBack(qs, ps, a);
      MovedBack(qs, ps, b);
    }
  }

  lemma CauseMoves(ps: seq<Problem>, qs: seq<Problem>, i: nat, j: nat)
    requires Permutes(ps, qs) && OrderFree(ps) && SameCause(ps, i, j)
    ensures SameCause(qs, Moved(ps, qs)(i), Moved(ps, qs)(j))
  {
    MovedRow(ps, qs, i);
    MovedRow(ps, qs, j);
    LinkedIsFirm(ps, i, j);
    FirmCauseMoves(ps, qs, i, j);
    FirmIsLinked(qs, Moved(ps, qs)(i), Moved(ps, qs)(j));
  }

  lemma OrderFreeSameGroups(ps: seq<Problem>, qs: seq<Problem>)
    requires Permutes(ps, qs) && DistinctKeys(ps) && OrderFree(ps)
    ensures SameGroups(ps, qs)
  {
    OrderFreeMoves(ps, qs);
    forall i: nat, j: nat | i < |ps| && j < |ps|
      ensures SameCause(ps, i, j) <==> SameCause(qs, Moved(ps, qs)(i), Moved(ps, qs)(j))
    {
      if SameCause(ps, i, j) {
        CauseMoves(ps, qs, i, j);
      }
      if SameCause(qs, Moved(ps, qs)(i), Moved(ps, qs)(j)) {
        CauseMoves(qs, ps, Moved(ps, qs)(i), Moved(ps, qs)(j));
        MovedBack(ps, qs, i);
        MovedBack(ps, qs, j);
      }
    }
  }

  predicate LaterFirst(a: Problem, b: Problem) {
    a.firstSeen > b.firstSeen
  }

  /** Listed latest first, rows are linked by firm links only: the difference of the times is never negative. */
  lemma LatestFirstIsFirm(ds: seq<Problem>, i: nat, j: nat)
    requires Sorted(ds, LaterFirst) && Connected(Links(ds), i, j)
    ensures Connected(Firm(ds), i, j)
  {
    forall a: nat, b: nat | a < b && IsRow(ds, a) && IsRow(ds, b) && PairRule(ds[a], ds[b])
      ensures Connected(Firm(ds), a, b)
    {
      assert !LaterFirst(ds[b], ds[a]);
      PairOrderMattersExactly(ds[a], ds[b]);
      StartedTogetherExactly(ds[a].firstSeen, ds[b].firstSeen);
      StartedTogetherExactly(ds[b].firstSeen, ds[a].firstSeen);
      assert FirmRule(ds, a, b);
      assert (a, b) in Firm(ds);
      ConnectedLink(Firm(ds), a, b);
    }
    LinkedIsFirm(ds, i, j);
  }

  /** So rows that some order keeps together in all orders are together by firm links. */
  lemma SameGroupsAreFirm(ps: seq<Problem>, i: nat, j: nat)
    requires DistinctKeys(ps) && SameInEveryOrder(ps) && SameCause(ps, i, j)
    ensures Connected(Firm(ps), i, j)
  {
    var ds := StableSort(ps, LaterFirst);
    StableSortPermutes(ps, LaterFirst);
    StableSortSorted(ps, LaterFirst);
    assert SameGroups(ps, ds);
    var a, b := Moved(ps, ds)(i), Moved(ps, ds)(j);
    LatestFirstIsFirm(ds, a, b);
    FirmCauseMoves(ds, ps, a, b);
    MovedBack(ps, ds, i);
    MovedBack(ps, ds, j);
  }

  ghost function Swapped(ps: seq<Problem>, i: nat, j: nat): (qs: seq<Problem>)
    requires i < |ps| && j < |ps|
    ensures |qs| == |ps| && qs[j] == ps[i] && (i != j ==> qs[i] == ps[j])
  {
    ps[i := ps[j]][j := ps[i]]
  }

  lemma SwappedPermutes(ps: seq<Problem>, i: nat, j: nat)
    requires i < |ps| && j < |ps|
    ensures Permutes(ps, Swapped(ps, i, j))
  {
  }

  /** A pair linked in one order is together in a listing that has it in that order. */
  lemma LinkedInSomeOrder(ps: seq<Problem>, i: nat, j: nat)
    requires DistinctKeys(ps) && SameInEveryOrder(ps)
    requires IsRow(ps, i) && IsRow(ps, j) && PairRule(ps[i], ps[j])
    ensures SameCause(ps, i, j)
  {
    if i < j {
      PairTogether(ps, i, j);
    } else {
      var qs := Swapped(ps, i, j);
      SwappedPermutes(ps, i, j);
      KeysMove(ps, qs);
      PairTogether(qs, j, i);
      MovedRow(ps, qs, i);
      MovedRow(ps, qs, j);
      assert Moved(ps, qs)(i) == j && Moved(ps, qs)(j) == i;
      assert SameGroups(ps, qs);
      assert SameCause(ps, i, j) <==> SameCause(qs, j, i);
    }
  }

  lemma PairTogether(ps: seq<Problem>, i: nat, j: nat)
    requires i < j && IsRow(ps, i) && IsRow(ps, j) && PairRule(ps[i], ps[j])
    ensures SameCause(ps, i, j)
  {
    assert LinkRule(ps, i, j);
    assert (i, j) in Links(ps);
    ConnectedLink(Links(ps), i, j);
  }

  /** Of all orders of a list, the order does not matter exactly when every two rows that the pair rule links in one
      order are together by links that hold in every order. */
  lemma OrderMattersExactly(ps: seq<Problem>)
    requires DistinctKeys(ps)
    ensures SameInEveryOrder(ps) <==> OrderFree(ps)
  {
    if OrderFree(ps) {
      forall qs | Permutes(ps, qs) ensures SameGroups(ps, qs) {
        OrderFreeSameGroups(ps, qs);
      }
    }
    if SameInEveryOrder(ps) {
      forall i: nat, j: nat | IsRow(ps, i) && IsRow(ps, j) && PairRule(ps[i], ps[j]) ensures Connected(Firm(ps), i, j) {
        LinkedInSomeOrder(ps, i, j);
        SameGroupsAreFirm(ps, i, j);
      }
    }
  }

  ghost predicate PairFits(a: Problem, b: Problem) {
    a.scope == Namespace && b.scope == Namespace && ClockDecides(a, b) ==>
        -HALF_RANGE < a.firstSeen - b.firstSeen < HALF_RANGE
  }

  /** It does not when no two namespace rows that only the clock can link were first seen 2^63 nanoseconds,
      about 292 years, apart. */
  lemma ShortSpanIsOrderFree(ps: seq<Problem>)
    requires forall p, q :: p in ps && q in ps ==> PairFits(p, q)
    ensures OrderFree(ps)
  {
    forall i: nat, j: nat | IsRow(ps, i) && IsRow(ps, j) && PairRule(ps[i], ps[j]) ensures Connected(Firm(ps), i, j) {
      assert ps[i] in ps && ps[j] in ps && PairFits(ps[i], ps[j]);
      PairOrderMattersExactly(ps[i], ps[j]);
      assert FirmRule(ps, i, j);
      assert (i, j) in Firm(ps);
      ConnectedLink(Firm(ps), i, j);
    }
  }

  // ---- Listings that group the same ----------------------------------------

  ghost predicate Reordered(ps: seq<Problem>, qs: seq<Problem>) {
    Permutes(ps, qs) && KeysOk(ps) && SameGroups(ps, qs)
  }

  lemma ReorderedSymmetric(ps: seq<Problem>, qs: seq<Problem>)
    requires Reordered(ps, qs)
    ensures Reordered(qs, ps)
  {
    KeysMove(ps, qs);
    PermutesMembers(ps, qs);
    forall a: nat, b: nat | a < |qs| && b < |qs|
      ensures SameCause(qs, a, b) <==> SameCause(ps, Moved(qs, ps)(a), Moved(qs, ps)(b))
    {
      var i, j := Moved(qs, ps)(a), Moved(qs, ps)(b);
      MovedBack(qs, ps, a);
      MovedBack(qs, ps, b);
      assert SameCause(ps, i, j) <==> SameCause(qs, Moved(ps, qs)(i), Moved(ps, qs)(j));
    }
  }

  lemma MergedMoves(ps: seq<Problem>, qs: seq<Problem>, i: nat)
    requires Reordered(ps, qs) && Merged(ps, i)
    ensures Merged(qs, Moved(ps, qs)(i))
  {
    var j: nat :| SameCause(ps, i, j) && Home(ps[i]) != Home(ps[j]);
    MovedRow(ps, qs, i);
    MovedRow(ps, qs, j);
  }

  // ---- Groups in another order ---------------------------------------------

  lemma GroupMembersMove(ps: seq<Problem>, qs: seq<Problem>, c: seq<nat>, d: seq<nat>, p: Problem)
    requires Reordered(ps, qs)
    requires IsComponent(ps, c) && InRange(c, |ps|) && IsComponent(qs, d) && InRange(d, |qs|)
    requires Moved(ps, qs)(c[0]) in d
    requires p in Pick(ps, c)
    ensures p in Pick(qs, d)
  {
    var k :| 0 <= k < |c| && Pick(ps, c)[k] == p;
    assert c[0] in c && c[k] in c;
    assert SameCause(ps, c[0], c[k]);
    MovedRow(ps, qs, c[k]);
    var m :| 0 <= m < |d| && d[m] == Moved(ps, qs)(c[k]);
    assert Pick(qs, d)[m] == p;
  }

  lemma PickDistinct(ps: seq<Problem>, c: seq<nat>)
    requires DistinctKeys(ps) && Ascending(c) && InRange(c, |ps|)
    ensures DistinctKeys(Pick(ps, c)) && Distinct(Pick(ps, c))
  {
  }

  lemma GroupsMatch(ps: seq<Problem>, qs: seq<Problem>, c: seq<nat>, d: seq<nat>)
    requires Reordered(ps, qs)
    requires IsComponent(ps, c) && InRange(c, |ps|) && IsComponent(qs, d) && InRange(d, |qs|)
    requires Moved(ps, qs)(c[0]) in d
    ensures Permutes(Pick(ps, c), Pick(qs, d))
  {
    ReorderedSymmetric(ps, qs);
    FirstMovesBack(ps, qs, c, d);
    forall p ensures p in Pick(ps, c) <==> p in Pick(qs, d) {
      if p in Pick(ps, c) {
        GroupMembersMove(ps, qs, c, d, p);
      }
      if p in Pick(qs, d) {
        GroupMembersMove(qs, ps, d, c, p);
      }
    }
    PickDistinct(ps, c);
    PickDistinct(qs, d);
    DistinctPermutes(Pick(ps, c), Pick(qs, d));
  }

  lemma FirstMovesBack(ps: seq<Problem>, qs: seq<Problem>, c: seq<nat>, d: seq<nat>)
    requires Reordered(ps, qs) && Reordered(qs, ps)
    requires IsComponent(ps, c) && InRange(c, |ps|) && IsComponent(qs, d) && InRange(d, |qs|)
    requires Moved(ps, qs)(c[0]) in d
    ensures Moved(qs, ps)(d[0]) in c
  {
    var a := Moved(ps, qs)(c[0]);
    assert d[0] in d;
    assert SameCause(qs, a, d[0]);
    MovedBack(ps, qs, c[0]);
    assert c[0] in c;
    assert SameCause(ps, c[0], Moved(qs, ps)(d[0]));
  }

  /** Distinct keys leave one member order. */
  lemma MemberOrderUnique(xs: seq<Problem>, s: seq<Problem>, t: seq<Problem>)
    requires DistinctKeys(xs) && Permutes(s, xs) && Permutes(t, xs)
    requires Sorted(s, MemberBefore) && Sorted(t, MemberBefore)
    ensures s == t
  {
    PermutesMembers(s, xs);
    forall i, j | 0 <= i < |s| && 0 <= j < |s| && !MemberBefore(s[i], s[j]) && !MemberBefore(s[j], s[i])
      ensures s[i] == s[j]
    {
      StringLessTrichotomy(s[i].key, s[j].key);
      assert s[i] in xs && s[j] in xs;
      SameKeySameRow(xs, s[i], s[j]);
    }
    SortedUnique(s, t, MemberBefore);
  }

  lemma SamePattern(xs: seq<Problem>, ys: seq<Problem>, now: Time, p: Problem, q: Problem)
    requires Permutes(xs, ys) && DistinctKeys(xs)
    requires IsPatternOf(xs, now, p) && IsPatternOf(ys, now, q)
    ensures p == q
  {
    var s := MemberOrderOf(xs, now, p);
    var t := MemberOrderOf(ys, now, q);
    MemberOrderUnique(xs, s, t);
  }

  lemma PatternMoves(ps: seq<Problem>, qs: seq<Problem>, now: Time, groups: seq<seq<nat>>, rest: seq<nat>,
                     out: seq<Problem>,
                     groups': seq<seq<nat>>, rest': seq<nat>, out': seq<Problem>, k: nat)
    requires Reordered(ps, qs) && GroupedBy(ps, now, groups, rest, out) && GroupedBy(qs, now, groups', rest', out')
    requires k < |groups|
    ensures out[k] in out'
  {
    var c := groups[k];
    MadeGroup(ps, now, groups, out[..|groups|], k);
    assert c[0] in c && Placed(ps, groups, rest, c[0]);
    assert InGroups(groups, c[0]);
    MergedMoves(ps, qs, c[0]);
    assert Placed(qs, groups', rest', Moved(ps, qs)(c[0]));
    var m :| 0 <= m < |groups'| && Moved(ps, qs)(c[0]) in groups'[m];
    MadeGroup(qs, now, groups', out'[..|groups'|], m);
    GroupsMatch(ps, qs, c, groups'[m]);
    PickDistinct(ps, c);
    SamePattern(Pick(ps, c), Pick(qs, groups'[m]), now, out[k], out'[m]);
  }

  lemma RestMoves(ps: seq<Problem>, qs: seq<Problem>, now: Time, groups: seq<seq<nat>>, rest: seq<nat>,
                  out: seq<Problem>,
                  groups': seq<seq<nat>>, rest': seq<nat>, out': seq<Problem>, k: nat)
    requires Reordered(ps, qs) && GroupedBy(ps, now, groups, rest, out) && GroupedBy(qs, now, groups', rest', out')
    requires k < |rest|
    ensures ps[rest[k]] in out'
  {
    var i := rest[k];
    assert i in rest && Placed(ps, groups, rest, i);
    MovedRow(ps, qs, i);
    var j := Moved(ps, qs)(i);
    if Merged(qs, j) {
      ReorderedSymmetric(ps, qs);
      MergedMoves(qs, ps, j);
      MovedBack(ps, qs, i);
    }
    assert Placed(qs, groups', rest', j);
    var m :| 0 <= m < |rest'| && rest'[m] == j;
    assert out'[|groups'|..][m] == qs[j];
  }

  lemma RowMovesTo(ps: seq<Problem>, qs: seq<Problem>, now: Time, groups: seq<seq<nat>>, rest: seq<nat>,
                   out: seq<Problem>,
                   groups': seq<seq<nat>>, rest': seq<nat>, out': seq<Problem>, k: nat)
    requires Reordered(ps, qs) && GroupedBy(ps, now, groups, rest, out) && GroupedBy(qs, now, groups', rest', out')
    requires k < |out|
    ensures out[k] in out'
  {
    GroupRows(ps, now, groups, rest, out);
    if k < |groups| {
      PatternMoves(ps, qs, now, groups, rest, out, groups', rest', out', k);
    } else {
      RestMoves(ps, qs, now, groups, rest, out, groups', rest', out', k - |groups|);
    }
  }

  lemma RowMoves(ps: seq<Problem>, qs: seq<Problem>, now: Time, out: seq<Problem>, out': seq<Problem>, p: Problem)
    requires Reordered(ps, qs) && Grouping(ps, now, out) && Grouping(qs, now, out') && p in out
    ensures p in out'
  {
    var k :| 0 <= k < |out| && out[k] == p;
    var groups, rest :| GroupedBy(ps, now, groups, rest, out);
    var groups', rest' :| GroupedBy(qs, now, groups', rest', out');
    RowMovesTo(ps, qs, now, groups, rest, out, groups', rest', out', k);
  }

  // ---- One home page -------------------------------------------------------

  /** The keys a pattern's key joins. */
  lemma SortedKeys(s: seq<Problem>, members: seq<Problem>) returns (ks: seq<string>)
    requires Permutes(s, members) && s != []
    ensures ks == StableSort(Map(Key, s), StringLess) && ks != []
    ensures forall k :: k in ks <==> k in Map(Key, members)
  {
    ks := StableSort(Map(Key, s), StringLess);
    StableSortPermutes(Map(Key, s), StringLess);
    MapPermutes(Key, s, members);
    PermutesMembers(ks, Map(Key, members));
  }

  lemma PatternKey(ps: seq<Problem>, now: Time, c: seq<nat>, p: Problem) returns (ks: seq<string>)
    requires IsGroup(ps, now, c, p) && KeysOk(ps)
    ensures p.key == PATTERN_PREFIX + Join(ks, ',') && ks != [] && forall k :: k in ks ==> ',' !in k
    ensures forall k :: k in ks <==> k in Map(Key, Pick(ps, c))
  {
    var s := MemberOrderOf(Pick(ps, c), now, p);
    ks := SortedKeys(s, Pick(ps, c));
    MemberKeys(ps, c);
  }

  lemma MemberKeys(ps: seq<Problem>, c: seq<nat>)
    requires IsComponent(ps, c) && InRange(c, |ps|) && KeysOk(ps)
    ensures forall k :: k in Map(Key, Pick(ps, c)) ==> ',' !in k
  {
    forall k | k in Map(Key, Pick(ps, c)) ensures ',' !in k {
      var x :| 0 <= x < |c| && Map(Key, Pick(ps, c))[x] == k;
      ComponentRow(ps, c, c[x]);
      assert ps[c[x]] in ps;
    }
  }

  lemma SharedKey(ps: seq<Problem>, c: seq<nat>, d: seq<nat>)
    requires IsComponent(ps, c) && IsComponent(ps, d) && InRange(c, |ps|) && InRange(d, |ps|) && DistinctKeys(ps)
    requires ps[c[0]].key in Map(Key, Pick(ps, d))
    ensures c == d
  {
    var x :| 0 <= x < |d| && Map(Key, Pick(ps, d))[x] == ps[c[0]].key;
    assert c[0] == d[x];
    SharedComponent(ps, c, d, c[0]);
  }

  /** Two groups with the same pattern key are the same group. */
  lemma PatternKeysDiffer(ps: seq<Problem>, now: Time, c: seq<nat>, d: seq<nat>, p: Problem, q: Problem)
    requires IsGroup(ps, now, c, p) && IsGroup(ps, now, d, q) && KeysOk(ps) && p.key == q.key
    ensures c == d
  {
    var ks := PatternKey(ps, now, c, p);
    var ls := PatternKey(ps, now, d, q);
    assert Join(ks, ',') == p.key[|PATTERN_PREFIX|..] == Join(ls, ',');
    JoinInjective(ks, ls, ',');
    assert Map(Key, Pick(ps, c))[0] in ks;
    SharedKey(ps, c, d);
  }

  /** A pattern's key starts with the prefix, which no single row's does. */
  lemma PatternKeyPrefixed(ps: seq<Problem>, now: Time, c: seq<nat>, p: Problem)
    requires IsGroup(ps, now, c, p) && KeysOk(ps)
    ensures PATTERN_PREFIX <= p.key
  {
    var ks := PatternKey(ps, now, c, p);
  }

  /** Distinct keys stay distinct through grouping. */
  lemma GroupedKeysDistinct(ps: seq<Problem>, now: Time, groups: seq<seq<nat>>, rest: seq<nat>, out: seq<Problem>,
                            a: nat, b: nat)
    requires GroupedBy(ps, now, groups, rest, out) && KeysOk(ps) && a < b < |out|
    ensures out[a].key != out[b].key
  {
    GroupRows(ps, now, groups, rest, out);
    var patterns, n := out[..|groups|], |groups|;
    if b < n {
      MadeGroup(ps, now, groups, patterns, a);
      MadeGroup(ps, now, groups, patterns, b);
      if out[a].key == out[b].key {
        PatternKeysDiffer(ps, now, groups[a], groups[b], out[a], out[b]);
      }
    } else if a < n {
      MadeGroup(ps, now, groups, patterns, a);
      PatternKeyPrefixed(ps, now, groups[a], out[a]);
      assert out[b] == ps[rest[b - n]];
      assert ps[rest[b - n]] in ps;
    } else {
      assert out[a] == ps[rest[a - n]] && out[b] == ps[rest[b - n]];
    }
  }

  lemma RankingUnique(out: seq<Problem>, s: seq<Problem>, t: seq<Problem>)
    requires DistinctKeys(out) && Permutes(s, out) && Permutes(t, out)
    requires Sorted(s, RowBefore) && Sorted(t, RowBefore)
    ensures s == t
  {
    PermutesMembers(s, out);
    forall i, j | 0 <= i < |s| && 0 <= j < |s| && !RowBefore(s[i], s[j]) && !RowBefore(s[j], s[i])
      ensures s[i] == s[j]
    {
      StringLessTrichotomy(s[i].key, s[j].key);
      assert s[i] in out && s[j] in out;
      SameKeySameRow(out, s[i], s[j]);
    }
    SortedUnique(s, t, RowBefore);
  }

  lemma GroupingKeys(ps: seq<Problem>, now: Time, out: seq<Problem>)
    requires Grouping(ps, now, out) && KeysOk(ps)
    ensures DistinctKeys(out)
  {
    var groups, rest :| GroupedBy(ps, now, groups, rest, out);
    forall a, b | 0 <= a < b < |out| ensures out[a].key != out[b].key {
      GroupedKeysDistinct(ps, now, groups, rest, out, a, b);
    }
  }

  /** Two listings that group the same give the same ranked page, whatever components are visited first. */
  lemma SameGroupsSamePage(ps: seq<Problem>, qs: seq<Problem>, now: Time, out: seq<Problem>, out': seq<Problem>,
                           page: seq<Problem>, page': seq<Problem>)
    requires Reordered(ps, qs)
    requires Grouping(ps, now, out) && Grouping(qs, now, out')
    requires Permutes(page, out) && Sorted(page, RowBefore)
    requires Permutes(page', out') && Sorted(page', RowBefore)
    ensures page == page'
  {
    ReorderedSymmetric(ps, qs);
    GroupingKeys(ps, now, out);
    GroupingKeys(qs, now, out');
    DistinctRows(out);
    DistinctRows(out');
    forall p ensures p in out <==> p in out' {
      if p in out { RowMoves(ps, qs, now, out, out', p); }
      if p in out' { RowMoves(qs, ps, now, out', out, p); }
    }
    DistinctPermutes(out, out');
    RankingUnique(out, page, page');
  }

  /** The home page does not depend on the order of the rows or of any map when the rows are order-free:
      whatever order they come in and whatever components are visited first, the ranked rows are the same. */
  lemma OneHomePage(ps: seq<Problem>, qs: seq<Problem>, now: Time, out: seq<Problem>, out': seq<Problem>,
                    page: seq<Problem>, page': seq<Problem>)
    requires Permutes(ps, qs) && KeysOk(ps) && OrderFree(ps)
    requires Grouping(ps, now, out) && Grouping(qs, now, out')
    requires Permutes(page, out) && Sorted(page, RowBefore)
    requires Permutes(page', out') && Sorted(page', RowBefore)
    ensures page == page'
  {
    OrderFreeSameGroups(ps, qs);
    SameGroupsSamePage(ps, qs, now, out, out', page, page');
  }
}
