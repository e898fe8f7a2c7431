/** What grouping guarantees: one tier per pattern, nothing lost, and when the order of the rows does
    not matter. */
module PatternLaws {
  import opened Clock
  import opened Sequences
  import opened UnionFind
  import opened Problems
  import opened Patterns
  import opened Tables

  // ---- Homogeneous patterns ------------------------------------------------

  /** Different tiers are never merged. */
  lemma ComponentHasOneTier(ps: seq<Problem>, i: nat, j: nat)
    requires i < |ps| && j < |ps| && Connected(Links(ps), i, j)
    ensures ps[i].tier == ps[j].tier
  {
    var tier := (k: nat) => if k < |ps| then ps[k].tier else New;
    forall l | l in Links(ps) ensures tier(l.0) == tier(l.1) {
      assert LinkRule(ps, l.0, l.1);
    }
    ConnectedInvariant(Links(ps), tier, i, j);
  }

  /** A row is merged exactly when it is connected to any other row: a component of two or more rows
      always reaches a second namespace. */
  lemma MergedExactly(ps: seq<Problem>, i: nat)
    ensures Merged(ps, i) <==> exists j: nat :: j != i && SameCause(ps, i, j)
  {
    if exists j: nat :: j != i && SameCause(ps, i, j) {
      var j: nat :| j != i && SameCause(ps, i, j);
      var z := ConnectedHasLink(Links(ps), i, j);
      ConnectedLink(Links(ps), i, z);
      assert LinkRule(ps, i, z) || LinkRule(ps, z, i);
      assert SameCause(ps, i, z);
      if Home(ps[z]) == Home(ps[i]) {
        InfraReachesAway(ps, i, z);
      }
    }
  }

  lemma InfraReachesAway(ps: seq<Problem>, i: nat, z: nat)
    requires IsRow(ps, i) && IsRow(ps, z)
    requires InfraRule(ps, i, z) || InfraRule(ps, z, i)
    ensures Merged(ps, i)
  {
    var homes := BucketHomes(ps, Primary(ps[i]), ps[i].tier);
    assert InBucket(ps, Primary(ps[i]), ps[i].tier, i);
    assert |homes| >= 3;
    assert homes != {Home(ps[i])};
    var h :| h in homes && h != Home(ps[i]);
    var k: nat :| k < |ps| && InBucket(ps, Primary(ps[i]), ps[i].tier, k) && Home(ps[k]) == h;
    assert InfraRule(ps, i, k);
    assert (i, k) in Links(ps);
    ConnectedLink(Links(ps), i, k);
    assert SameCause(ps, i, k);
  }

  ghost predicate Aged(ps: seq<Problem>, now: Time) {
    forall i :: 0 <= i < |ps| && ps[i].scope == Namespace ==> ps[i].tier == TierAt(now, ps[i].firstSeen)
  }

  lemma MembersShareTier(ps: seq<Problem>, c: seq<nat>, x: nat, y: nat)
    requires IsComponent(ps, c) && InRange(c, |ps|) && x < |c| && y < |c|
    ensures ps[c[x]].tier == ps[c[y]].tier
  {
    assert c[x] in c && c[y] in c;
    assert SameCause(ps, c[x], c[y]);
    ComponentHasOneTier(ps, c[x], c[y]);
  }

  lemma MembersAged(ps: seq<Problem>, now: Time, c: seq<nat>, s: seq<Problem>)
    requires IsComponent(ps, c) && InRange(c, |ps|) && Permutes(s, Pick(ps, c)) && Aged(ps, now) && s != []
    requires forall q :: q in ps && q.scope == Namespace ==> Complete(q)
    ensures forall m :: m in s ==> Complete(m) && m.tier == s[0].tier == TierAt(now, m.firstSeen)
    ensures forall i :: 0 <= i < |c| ==> ps[c[i]].tier == s[0].tier
  {
    ComponentComplete(ps, c);
    PermutesMembers(s, Pick(ps, c));
    assert s[0] in Pick(ps, c);
    var h :| 0 <= h < |c| && Pick(ps, c)[h] == s[0];
    forall i | 0 <= i < |c| ensures ps[c[i]].tier == s[0].tier {
      MembersShareTier(ps, c, i, h);
    }
    forall m | m in s ensures Complete(m) && m.tier == s[0].tier == TierAt(now, m.firstSeen) {
      var i :| 0 <= i < |c| && Pick(ps, c)[i] == m;
      assert ps[c[i]].scope == Namespace;
    }
  }

  /** Every pattern has the one tier of all its members, which its own age gives again, and it reaches
      two or more namespaces. */
  lemma PatternsAreHomogeneous(ps: seq<Problem>, now: Time, c: seq<nat>, p: Problem)
    requires IsGroup(ps, now, c, p) && Aged(ps, now) && Merged(ps, c[0])
    requires forall q :: q in ps && q.scope == Namespace ==> Complete(q)
    ensures forall i :: 0 <= i < |c| ==> ps[c[i]].tier == p.tier
    ensures p.tier == TierAt(now, p.firstSeen) && Timed(p, now) == p
    ensures |p.namespaces| >= 2
  {
    var s := MemberOrderOf(Pick(ps, c), now, p);
    MembersAged(ps, now, c, s);
    PatternTier(s, now);
    PatternSpans(ps, now, c, s);
  }

  lemma PatternSpans(ps: seq<Problem>, now: Time, c: seq<nat>, s: seq<Problem>)
    requires IsComponent(ps, c) && InRange(c, |ps|) && Permutes(s, Pick(ps, c)) && s != []
    requires Merged(ps, c[0])
    ensures |PatternOf(s, now).namespaces| >= 2
  {
    var i := c[0];
    assert i in c;
    var j: nat :| SameCause(ps, i, j) && Home(ps[i]) != Home(ps[j]);
    var k :| 0 <= k < |c| && c[k] == j;
    PermutesMembers(s, Pick(ps, c));
    assert Pick(ps, c)[0] in s && Pick(ps, c)[k] in s;
    TwoHomes(s, ps[i], ps[j]);
  }

  lemma TwoHomes(s: seq<Problem>, p: Problem, q: Problem)
    requires p in s && q in s && Home(p) != Home(q)
    ensures |Listing(HomesOf(s))| >= 2
  {
    var ls := Listing(HomesOf(s));
    assert Home(p) in HomesOf(s) && Home(q) in HomesOf(s);
    assert Home(p) in ls && Home(q) in ls;
  }

  // ---- Conservation --------------------------------------------------------

  /** The single rows a row of the home page stands for. */
  ghost function Leaves(p: Problem): seq<PatternItem> {
    if p.scope == Pattern then p.items else [Item(p)]
  }

  ghost function AllLeaves(ps: seq<Problem>): seq<PatternItem> {
    FlatBy(ps, Leaves)
  }

  lemma SingleLeaves(ps: seq<Problem>)
    requires forall p :: p in ps ==> p.scope != Pattern
    ensures AllLeaves(ps) == Map(Item, ps)
  {
    if ps != [] {
      SingleLeaves(ps[..|ps| - 1]);
      MapStep(Item, ps, |ps| - 1);
      assert ps[..|ps|] == ps;
    }
  }

  ghost function Flat(groups: seq<seq<nat>>): seq<nat> {
    if groups == [] then [] else Flat(groups[..|groups| - 1]) + groups[|groups| - 1]
  }

  lemma FlatMembers(groups: seq<seq<nat>>, i: nat)
    ensures i in Flat(groups) <==> InGroups(groups, i)
  {
    if groups != [] {
      var front, c := groups[..|groups| - 1], groups[|groups| - 1];
      FlatMembers(front, i);
      assert groups == front + [c];
      InGroupsAppend(front, c, i);
    }
  }

  lemma FlatDistinct(groups: seq<seq<nat>>)
    requires forall k :: 0 <= k < |groups| ==> Distinct(groups[k])
    requires forall k, l, i: nat :: 0 <= k < l < |groups| && i in groups[k] ==> i !in groups[l]
    ensures Distinct(Flat(groups))
  {
    if groups != [] {
      var front, c := groups[..|groups| - 1], groups[|groups| - 1];
      FlatDistinct(front);
      forall i: nat | i in Flat(front) ensures i !in c {
        FlatMembers(front, i);
        var k :| 0 <= k < |front| && i in front[k];
        assert groups[k] == front[k];
      }
      DistinctConcat(Flat(front), c);
    }
  }

  lemma DistinctConcat<T(!new)>(xs: seq<T>, ys: seq<T>)
    requires Distinct(xs) && Distinct(ys) && forall x :: x in xs ==> x !in ys
    ensures Distinct(xs + ys)
  {
    var zs := xs + ys;
    forall i, j | 0 <= i < j < |zs| ensures zs[i] != zs[j] {
      if i < |xs| <= j {
        assert zs[i] in xs && zs[j] in ys;
      }
    }
  }

  lemma AscendingDistinct(c: seq<nat>)
    requires Ascending(c)
    ensures Distinct(c)
  {
  }

  lemma AscendingUnique(a: seq<nat>, b: seq<nat>)
    requires Ascending(a) && Ascending(b) && forall i: nat :: i in a <==> i in b
    ensures a == b
  {
    var less := (x: nat, y: nat) => x < y;
    DistinctPermutes(a, b);
    SortedUnique(a, b, less);
  }

  /** Components that share a row are the same. */
  lemma SharedComponent(ps: seq<Problem>, c: seq<nat>, d: seq<nat>, i: nat)
    requires IsComponent(ps, c) && IsComponent(ps, d) && i in c && i in d
    ensures c == d
  {
    assert forall j: nat :: SameCause(ps, i, j) <==> j in c;
    assert forall j: nat :: SameCause(ps, i, j) <==> j in d;
    AscendingUnique(c, d);
  }

  lemma MadeGroup(ps: seq<Problem>, now: Time, groups: seq<seq<nat>>, out: seq<Problem>, k: nat)
    requires Made(ps, now, groups, out) && k < |groups|
    ensures IsGroup(ps, now, groups[k], out[k]) && IsComponent(ps, groups[k]) && InRange(groups[k], |ps|)
  {
    assert IsGroup(ps, now, groups[k], out[k]);
  }

  lemma FirstIsMerged(ps: seq<Problem>, groups: seq<seq<nat>>, rest: seq<nat>, k: nat)
    requires forall i: nat {:trigger Placed(ps, groups, rest, i)} :: Placed(ps, groups, rest, i)
    requires k < |groups| && groups[k] != []
    ensures Merged(ps, groups[k][0])
  {
    assert groups[k][0] in groups[k];
    assert Placed(ps, groups, rest, groups[k][0]);
  }

  lemma GroupsAreDisjoint(ps: seq<Problem>, now: Time, groups: seq<seq<nat>>, out: seq<Problem>)
    requires Made(ps, now, groups, out) && Distinct(groups)
    ensures Distinct(Flat(groups))
  {
    forall k | 0 <= k < |groups| ensures Distinct(groups[k]) {
      MadeGroup(ps, now, groups, out, k);
      AscendingDistinct(groups[k]);
    }
    forall k, l, i: nat | 0 <= k < l < |groups| && i in groups[k] ensures i !in groups[l] {
      if i in groups[l] {
        MadeGroup(ps, now, groups, out, k);
        MadeGroup(ps, now, groups, out, l);
        SharedComponent(ps, groups[k], groups[l], i);
      }
    }
    FlatDistinct(groups);
  }

  /** The groups and the rest list every row index once. */
  lemma GroupsCover(ps: seq<Problem>, now: Time, groups: seq<seq<nat>>, rest: seq<nat>, out: seq<Problem>)
    requires GroupedBy(ps, now, groups, rest, out)
    ensures Permutes(Flat(groups) + rest, Range(|ps|))
  {
    GroupsAreDisjoint(ps, now, groups, out[..|groups|]);
    AscendingDistinct(rest);
    forall i: nat ensures i in Flat(groups) <==> i < |ps| && i !in rest {
      FlatMembers(groups, i);
      assert Placed(ps, groups, rest, i);
    }
    CoverMembers(Flat(groups), rest, |ps|);
  }

  lemma CoverMembers(xs: seq<nat>, ys: seq<nat>, n: nat)
    requires Distinct(xs) && Distinct(ys) && InRange(ys, n)
    requires forall i: nat :: i in xs <==> i < n && i !in ys
    ensures Permutes(xs + ys, Range(n))
  {
    DistinctConcat(xs, ys);
    forall i: nat ensures i in xs + ys <==> i in Range(n) {
      assert i < n ==> Range(n)[i] == i;
    }
    DistinctPermutes(xs + ys, Range(n));
  }

  ghost function ItemAt(ps: seq<Problem>): nat -> PatternItem
  {
    i => if 0 <= i < |ps| then Item(ps[i]) else PatternItem("", "", "", "", 0, false, "")
  }

  lemma ItemsAt(ps: seq<Problem>, c: seq<nat>)
    requires InRange(c, |ps|)
    ensures Map(Item, Pick(ps, c)) == Map(ItemAt(ps), c)
  {
  }

  lemma GroupLeaves(ps: seq<Problem>, now: Time, c: seq<nat>, p: Problem)
    requires IsGroup(ps, now, c, p)
    ensures Permutes(Leaves(p), Map(ItemAt(ps), c))
  {
    var s := MemberOrderOf(Pick(ps, c), now, p);
    MapPermutes(Item, s, Pick(ps, c));
    ItemsAt(ps, c);
  }

  lemma {:induction false} PatternLeaves(ps: seq<Problem>, now: Time, groups: seq<seq<nat>>, out: seq<Problem>)
    requires Made(ps, now, groups, out)
    ensures Permutes(AllLeaves(out), Map(ItemAt(ps), Flat(groups)))
  {
    if groups != [] {
      var n := |groups| - 1;
      MadeGroup(ps, now, groups, out, n);
      GroupLeaves(ps, now, groups[n], out[n]);
      forall k | 0 <= k < n ensures IsGroup(ps, now, groups[..n][k], out[..n][k]) {
        MadeGroup(ps, now, groups, out, k);
      }
      PatternLeaves(ps, now, groups[..n], out[..n]);
      MapConcat(ItemAt(ps), Flat(groups[..n]), groups[n]);
    }
  }

  lemma MapConcat<A, B>(f: A -> B, xs: seq<A>, ys: seq<A>)
    ensures Map(f, xs + ys) == Map(f, xs) + Map(f, ys)
  {
  }

  lemma GroupRows(ps: seq<Problem>, now: Time, groups: seq<seq<nat>>, rest: seq<nat>, out: seq<Problem>)
    requires GroupedBy(ps, now, groups, rest, out)
    ensures out == out[..|groups|] + Pick(ps, rest) && Made(ps, now, groups, out[..|groups|])
  {
  }

  /** Grouping loses and repeats nothing: each row survives exactly once, as a row or as one item of one
      pattern. */
  lemma RowsSurvive(ps: seq<Problem>, now: Time, groups: seq<seq<nat>>, rest: seq<nat>, out: seq<Problem>)
    requires GroupedBy(ps, now, groups, rest, out)
    requires forall p :: p in ps ==> p.scope != Pattern
    ensures Permutes(AllLeaves(out), Map(Item, ps))
  {
    GroupRows(ps, now, groups, rest, out);
    FlatByConcat(out[..|groups|], Pick(ps, rest), Leaves);
    PatternLeaves(ps, now, groups, out[..|groups|]);
    SingleLeaves(Pick(ps, rest));
    ItemsAt(ps, rest);
    GroupsCover(ps, now, groups, rest, out);
    IndexedItems(ps, Flat(groups), rest);
  }

  lemma IndexedItems(ps: seq<Problem>, xs: seq<nat>, ys: seq<nat>)
    requires Permutes(xs + ys, Range(|ps|))
    ensures Permutes(Map(ItemAt(ps), xs) + Map(ItemAt(ps), ys), Map(Item, ps))
  {
    MapConcat(ItemAt(ps), xs, ys);
    MapPermutes(ItemAt(ps), xs + ys, Range(|ps|));
    assert Map(ItemAt(ps), Range(|ps|)) == Map(Item, ps);
  }

  function ItemOccurrences(item: PatternItem): int { item.occurrences }

  lemma {:induction false} SumByMap<A, B>(f: A -> B, g: B -> int, h: A -> int, xs: seq<A>)
    requires forall x :: x in xs ==> g(f(x)) == h(x)
    ensures SumBy(Map(f, xs), g) == SumBy(xs, h)
  {
    if xs != [] {
      MapStep(f, xs, |xs| - 1);
      assert xs[..|xs|] == xs;
      SumByMap(f, g, h, xs[..|xs| - 1]);
    }
  }

  lemma {:induction false} LeavesTotal(ps: seq<Problem>)
    requires forall p :: p in ps ==> p.occurrences == SumBy(Leaves(p), ItemOccurrences)
    ensures SumBy(ps, Occurrences) == SumBy(AllLeaves(ps), ItemOccurrences)
  {
    if ps != [] {
      var front, p := ps[..|ps| - 1], ps[|ps| - 1];
      assert p in ps;
      LeavesTotal(front);
      SumByConcat(AllLeaves(front), Leaves(p), ItemOccurrences);
    }
  }

  lemma SingleTotal(p: Problem)
    ensures SumBy([Item(p)], ItemOccurrences) == p.occurrences
  {
    assert [Item(p)][..0] == [];
  }

  lemma PatternTotal(s: seq<Problem>, now: Time)
    requires s != []
    ensures PatternOf(s, now).occurrences == SumBy(Leaves(PatternOf(s, now)), ItemOccurrences)
  {
    SumByMap(Item, ItemOccurrences, Occurrences, s);
  }

  /** Grouping conserves the occurrences. */
  lemma OccurrencesSurvive(ps: seq<Problem>, now: Time, groups: seq<seq<nat>>, rest: seq<nat>, out: seq<Problem>)
    requires GroupedBy(ps, now, groups, rest, out)
    requires forall p :: p in ps ==> p.scope != Pattern
    ensures SumBy(out, Occurrences) == SumBy(ps, Occurrences)
  {
    RowsSurvive(ps, now, groups, rest, out);
    SumByPermutation(AllLeaves(out), Map(Item, ps), ItemOccurrences);
    SumByMap(Item, ItemOccurrences, Occurrences, ps);
    forall p | p in out ensures p.occurrences == SumBy(Leaves(p), ItemOccurrences) {
      var k :| 0 <= k < |out| && out[k] == p;
      RowTotal(ps, now, groups, rest, out, k);
    }
    LeavesTotal(out);
  }

  lemma RowTotal(ps: seq<Problem>, now: Time, groups: seq<seq<nat>>, rest: seq<nat>, out: seq<Problem>, k: nat)
    requires GroupedBy(ps, now, groups, rest, out) && k < |out|
    requires forall p :: p in ps ==> p.scope != Pattern
    ensures out[k].occurrences == SumBy(Leaves(out[k]), ItemOccurrences)
  {
    GroupRows(ps, now, groups, rest, out);
    if k < |groups| {
      MadeGroup(ps, now, groups, out[..|groups|], k);
      var s := MemberOrderOf(Pick(ps, groups[k]), now, out[k]);
      PatternTotal(s, now);
    } else {
      assert out[k] == ps[rest[k - |groups|]];
      SingleTotal(out[k]);
    }
  }
}
