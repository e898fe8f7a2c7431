/** The home page tells which rows are together: one page for every order of the rows exactly when the order
    does not matter. */
module PageLaws {
  import opened Clock
  import opened Sequences
  import opened Strings
  import opened UnionFind
  import opened Problems
  import opened Patterns
  import opened PatternLaws
  import opened OrderLaws

  // ---- Every listing can be grouped ----------------------------------------

  lemma SameCauseSym(ps: seq<Problem>, i: nat, j: nat)
    requires SameCause(ps, i, j)
    ensures SameCause(ps, j, i)
  {
    ConnectedSym(Links(ps), i, j);
  }

  lemma SameCauseTrans(ps: seq<Problem>, i: nat, j: nat, k: nat)
    requires SameCause(ps, i, j) && SameCause(ps, j, k)
    ensures SameCause(ps, i, k)
  {
    ConnectedTrans(Links(ps), i, j, k);
  }

  lemma MergedTogether(ps: seq<Problem>, i: nat, j: nat)
    requires SameCause(ps, i, j) && Merged(ps, i)
    ensures Merged(ps, j)
  {
    var k: nat :| SameCause(ps, i, k) && Home(ps[i]) != Home(ps[k]);
    SameCauseSym(ps, i, j);
    SameCauseTrans(ps, j, i, k);
  }

  ghost function With(ps: seq<Problem>, i: nat): nat -> bool {
    (j: nat) => SameCause(ps, i, j)
  }

  ghost function ComponentOf(ps: seq<Problem>, i: nat): seq<nat> {
    Filter(Range(|ps|), With(ps, i))
  }

  lemma {:induction false} FilterAscending(xs: seq<nat>, keep: nat -> bool)
    requires Ascending(xs)
    ensures Ascending(Filter(xs, keep))
  {
    if xs != [] {
      var front := xs[..|xs| - 1];
      FilterAscending(front, keep);
      forall k | 0 <= k < |Filter(front, keep)| ensures Filter(front, keep)[k] < xs[|xs| - 1] {
        FilterMembers(front, keep, Filter(front, keep)[k]);
      }
    }
  }

  lemma RangeMembers(n: nat, i: nat)
    ensures i in Range(n) <==> i < n
  {
    if i < n {
      assert Range(n)[i] == i;
    }
  }

  lemma ComponentMembers(ps: seq<Problem>, i: nat, j: nat)
    ensures j in ComponentOf(ps, i) <==> SameCause(ps, i, j)
  {
    RangeMembers(|ps|, j);
    FilterMembers(Range(|ps|), With(ps, i), j);
  }

  lemma ComponentOfIs(ps: seq<Problem>, i: nat)
    requires IsRow(ps, i)
    ensures IsComponent(ps, ComponentOf(ps, i)) && InRange(ComponentOf(ps, i), |ps|) && i in ComponentOf(ps, i)
  {
    var c := ComponentOf(ps, i);
    ConnectedRefl(Links(ps), i);
    ComponentMembers(ps, i, i);
    FilterAscending(Range(|ps|), With(ps, i));
    forall k | 0 <= k < |c| ensures c[k] < |ps| {
      ComponentMembers(ps, i, c[k]);
    }
    forall a: nat, b: nat | a in c ensures b in c <==> SameCause(ps, a, b) {
      ComponentMembers(ps, i, a);
      ComponentMembers(ps, i, b);
      SameCauseSym(ps, i, a);
      if SameCause(ps, i, b) {
        SameCauseTrans(ps, a, i, b);
      }
      if SameCause(ps, a, b) {
        SameCauseTrans(ps, i, a, b);
      }
    }
  }

  /** The first row of a component that is merged. */
  ghost predicate Leads(ps: seq<Problem>, i: nat) {
    Merged(ps, i) && forall j: nat :: j < i ==> !SameCause(ps, i, j)
  }

  lemma {:induction false} LeaderOf(ps: seq<Problem>, i: nat) returns (a: nat)
    requires Merged(ps, i)
    ensures Leads(ps, a) && SameCause(ps, a, i)
    decreases i
  {
    if j: nat :| j < i && SameCause(ps, i, j) {
      MergedTogether(ps, i, j);
      a := LeaderOf(ps, j);
      SameCauseSym(ps, i, j);
      SameCauseTrans(ps, a, j, i);
    } else {
      a := i;
      ConnectedRefl(Links(ps), i);
    }
  }

  ghost function Leaders(ps: seq<Problem>): seq<nat> {
    Filter(Range(|ps|), (i: nat) => Leads(ps, i))
  }

  lemma LeadersLead(ps: seq<Problem>, i: nat)
    ensures i in Leaders(ps) <==> Leads(ps, i)
  {
    RangeMembers(|ps|, i);
    FilterMembers(Range(|ps|), (i: nat) => Leads(ps, i), i);
  }

  ghost function AllGroups(ps: seq<Problem>): seq<seq<nat>> {
    Map((i: nat) => ComponentOf(ps, i), Leaders(ps))
  }

  lemma GroupsApart(ps: seq<Problem>)
    ensures Distinct(AllGroups(ps))
  {
    var leaders, groups := Leaders(ps), AllGroups(ps);
    FilterAscending(Range(|ps|), (i: nat) => Leads(ps, i));
    forall x, y | 0 <= x < y < |groups| ensures groups[x] != groups[y] {
      var a, b := leaders[x], leaders[y];
      assert a in leaders && b in leaders;
      LeadersLead(ps, a);
      LeadersLead(ps, b);
      ComponentOfIs(ps, a);
      ComponentMembers(ps, b, a);
    }
  }

  lemma GroupsHold(ps: seq<Problem>, i: nat)
    ensures InGroups(AllGroups(ps), i) <==> Merged(ps, i)
  {
    var leaders, groups := Leaders(ps), AllGroups(ps);
    if Merged(ps, i) {
      var a := LeaderOf(ps, i);
      LeadersLead(ps, a);
      var x :| 0 <= x < |leaders| && leaders[x] == a;
      ComponentMembers(ps, a, i);
      assert i in groups[x];
    }
    if x :| 0 <= x < |groups| && i in groups[x] {
      assert leaders[x] in leaders;
      LeadersLead(ps, leaders[x]);
      ComponentMembers(ps, leaders[x], i);
      MergedTogether(ps, leaders[x], i);
    }
  }

  ghost function Singles(ps: seq<Problem>): seq<nat> {
    Filter(Range(|ps|), (i: nat) => !Merged(ps, i))
  }

  lemma SinglesHold(ps: seq<Problem>, i: nat)
    ensures i in Singles(ps) <==> i < |ps| && !Merged(ps, i)
  {
    RangeMembers(|ps|, i);
    FilterMembers(Range(|ps|), (i: nat) => !Merged(ps, i), i);
  }

  lemma SinglesInRange(ps: seq<Problem>)
    ensures Ascending(Singles(ps)) && InRange(Singles(ps), |ps|)
  {
    FilterAscending(Range(|ps|), (i: nat) => !Merged(ps, i));
    forall k | 0 <= k < |Singles(ps)| ensures Singles(ps)[k] < |ps| {
      SinglesHold(ps, Singles(ps)[k]);
    }
  }

  ghost function PatternRow(ps: seq<Problem>, now: Time, c: seq<nat>): Problem
    requires c != [] && InRange(c, |ps|)
  {
    PatternOf(StableSort(Pick(ps, c), MemberBefore), now)
  }

  lemma PatternRowIs(ps: seq<Problem>, now: Time, c: seq<nat>)
    requires IsComponent(ps, c) && InRange(c, |ps|)
    ensures IsGroup(ps, now, c, PatternRow(ps, now, c))
  {
    var s := StableSort(Pick(ps, c), MemberBefore);
    MemberBeforeIsWeakOrder();
    StableSortPermutes(Pick(ps, c), MemberBefore);
    StableSortSorted(Pick(ps, c), MemberBefore);
  }

  lemma GroupAt(ps: seq<Problem>, k: nat)
    requires k < |AllGroups(ps)|
    ensures IsComponent(ps, AllGroups(ps)[k]) && InRange(AllGroups(ps)[k], |ps|)
  {
    var a := Leaders(ps)[k];
    assert a in Leaders(ps);
    LeadersLead(ps, a);
    ComponentOfIs(ps, a);
  }

  lemma PatternRows(ps: seq<Problem>, now: Time) returns (patterns: seq<Problem>)
    ensures Made(ps, now, AllGroups(ps), patterns)
  {
    var groups := AllGroups(ps);
    forall k | 0 <= k < |groups| ensures groups[k] != [] && InRange(groups[k], |ps|) {
      GroupAt(ps, k);
    }
    patterns := seq(|groups|, k requires 0 <= k < |groups| => PatternRow(ps, now, groups[k]));
    forall k | 0 <= k < |groups| ensures IsGroup(ps, now, groups[k], patterns[k]) {
      GroupAt(ps, k);
      PatternRowIs(ps, now, groups[k]);
    }
  }

  lemma GroupingExists(ps: seq<Problem>, now: Time) returns (out: seq<Problem>)
    ensures Grouping(ps, now, out)
  {
    var groups, rest := AllGroups(ps), Singles(ps);
    var patterns := PatternRows(ps, now);
    SinglesInRange(ps);
    GroupsApart(ps);
    out := patterns + Pick(ps, rest);
    assert out[..|groups|] == patterns && out[|groups|..] == Pick(ps, rest);
    forall i: nat ensures Placed(ps, groups, rest, i) {
      GroupsHold(ps, i);
      SinglesHold(ps, i);
    }
    assert GroupedBy(ps, now, groups, rest, out);
  }

  // ---- What a page tells ---------------------------------------------------

  /** Two listings' patterns with one key join the same member keys. */
  lemma SameKeyJoined(ps: seq<Problem>, qs: seq<Problem>, now: Time, c: seq<nat>, d: seq<nat>, p: Problem)
    requires KeysOk(ps) && KeysOk(qs) && IsGroup(ps, now, c, p) && IsGroup(qs, now, d, p)
    ensures forall k :: k in Map(Key, Pick(ps, c)) <==> k in Map(Key, Pick(qs, d))
  {
    var ks := PatternKey(ps, now, c, p);
    var ls := PatternKey(qs, now, d, p);
    assert Join(ks, ',') == p.key[|PATTERN_PREFIX|..] == Join(ls, ',');
    JoinInjective(ks, ls, ',');
  }

  lemma KeyPicked(ps: seq<Problem>, qs: seq<Problem>, c: seq<nat>, d: seq<nat>, i: nat)
    requires Permutes(ps, qs) && DistinctKeys(qs) && InRange(c, |ps|) && InRange(d, |qs|) && i in c
    requires forall k :: k in Map(Key, Pick(ps, c)) <==> k in Map(Key, Pick(qs, d))
    ensures i < |ps| && Moved(ps, qs)(i) in d
  {
    var x :| 0 <= x < |c| && c[x] == i;
    assert Map(Key, Pick(ps, c))[x] == ps[i].key;
    assert ps[i].key in Map(Key, Pick(qs, d));
    var y :| 0 <= y < |d| && Map(Key, Pick(qs, d))[y] == ps[i].key;
    MovedRow(ps, qs, i);
    assert qs[d[y]].key == qs[Moved(ps, qs)(i)].key;
  }

  lemma PatternIsPattern(ps: seq<Problem>, now: Time, groups: seq<seq<nat>>, rest: seq<nat>, out: seq<Problem>,
                         k: nat, p: Problem)
    requires GroupedBy(ps, now, groups, rest, out) && KeysOk(ps) && k < |out| && out[k] == p && PATTERN_PREFIX <= p.key
    ensures k < |groups| && IsGroup(ps, now, groups[k], p)
  {
    GroupRows(ps, now, groups, rest, out);
    if k < |groups| {
      MadeGroup(ps, now, groups, out[..|groups|], k);
    }
  }

  lemma KeysOkMoves(ps: seq<Problem>, qs: seq<Problem>)
    requires Permutes(ps, qs) && KeysOk(ps)
    ensures KeysOk(qs)
  {
    KeysMove(ps, qs);
    PermutesMembers(ps, qs);
  }

  lemma PageKeepsTogether(ps: seq<Problem>, qs: seq<Problem>, now: Time, groups: seq<seq<nat>>, rest: seq<nat>,
                          out: seq<Problem>,
                          groups': seq<seq<nat>>, rest': seq<nat>, out': seq<Problem>, i: nat, j: nat)
    requires Permutes(ps, qs) && KeysOk(ps) && KeysOk(qs) && (forall p :: p in out ==> p in out')
    requires GroupedBy(ps, now, groups, rest, out) && GroupedBy(qs, now, groups', rest', out')
    requires SameCause(ps, i, j) && i != j
    ensures SameCause(qs, Moved(ps, qs)(i), Moved(ps, qs)(j))
  {
    MergedExactly(ps, i);
    assert Placed(ps, groups, rest, i);
    var k :| 0 <= k < |groups| && i in groups[k];
    MadeGroup(ps, now, groups, out[..|groups|], k);
    var p := out[k];
    assert j in groups[k];
    PatternKeyPrefixed(ps, now, groups[k], p);
    assert p in out;
    var m :| 0 <= m < |out'| && out'[m] == p;
    PatternIsPattern(qs, now, groups', rest', out', m, p);
    SameKeyJoined(ps, qs, now, groups[k], groups'[m], p);
    KeyPicked(ps, qs, groups[k], groups'[m], i);
    KeyPicked(ps, qs, groups[k], groups'[m], j);
  }

  lemma PageKeeps(ps: seq<Problem>, qs: seq<Problem>, now: Time, out: seq<Problem>, out': seq<Problem>, i: nat, j: nat)
    requires Permutes(ps, qs) && KeysOk(ps) && KeysOk(qs) && (forall p :: p in out ==> p in out')
    requires Grouping(ps, now, out) && Grouping(qs, now, out')
    requires SameCause(ps, i, j)
    ensures SameCause(qs, Moved(ps, qs)(i), Moved(ps, qs)(j))
  {
    MovedRow(ps, qs, i);
    if i == j {
      ConnectedRefl(Links(qs), Moved(ps, qs)(i));
    } else {
      var groups, rest :| GroupedBy(ps, now, groups, rest, out);
      var groups', rest' :| GroupedBy(qs, now, groups', rest', out');
      PageKeepsTogether(ps, qs, now, groups, rest, out, groups', rest', out', i, j);
    }
  }

  /** Listings with the same page put the same rows together. */
  lemma SamePageSameGroups(ps: seq<Problem>, qs: seq<Problem>, now: Time, out: seq<Problem>, out': seq<Problem>)
    requires Permutes(ps, qs) && KeysOk(ps) && Permutes(out, out')
    requires Grouping(ps, now, out) && Grouping(qs, now, out')
    ensures SameGroups(ps, qs)
  {
    KeysOkMoves(ps, qs);
    PermutesMembers(out, out');
    forall i: nat, j: nat | i < |ps| && j < |ps|
      ensures SameCause(ps, i, j) <==> SameCause(qs, Moved(ps, qs)(i), Moved(ps, qs)(j))
    {
      if SameCause(ps, i, j) {
        PageKeeps(ps, qs, now, out, out', i, j);
      }
      if SameCause(qs, Moved(ps, qs)(i), Moved(ps, qs)(j)) {
        PageKeeps(qs, ps, now, out', out, Moved(ps, qs)(i), Moved(ps, qs)(j));
        MovedBack(ps, qs, i);
        MovedBack(ps, qs, j);
      }
    }
  }

  /** The ranked rows of a grouping. */
  ghost predicate IsPage(ps: seq<Problem>, now: Time, page: seq<Problem>) {
    Sorted(page, RowBefore) && exists out :: Grouping(ps, now, out) && Permutes(page, out)
  }

  /** Two listings of the same rows have one page exactly when they put the same rows together. */
  lemma SamePageExactly(ps: seq<Problem>, qs: seq<Problem>, now: Time, page: seq<Problem>, page': seq<Problem>)
    requires Permutes(ps, qs) && KeysOk(ps) && IsPage(ps, now, page) && IsPage(qs, now, page')
    ensures page == page' <==> SameGroups(ps, qs)
  {
    var out :| Grouping(ps, now, out) && Permutes(page, out);
    var out' :| Grouping(qs, now, out') && Permutes(page', out');
    if page == page' {
      SamePageSameGroups(ps, qs, now, out, out');
    }
    if SameGroups(ps, qs) {
      SameGroupsSamePage(ps, qs, now, out, out', page, page');
    }
  }

  lemma PageExists(ps: seq<Problem>, now: Time) returns (page: seq<Problem>)
    ensures IsPage(ps, now, page)
  {
    var out := GroupingExists(ps, now);
    RowBeforeIsWeakOrder();
    StableSortPermutes(out, RowBefore);
    StableSortSorted(out, RowBefore);
    page := StableSort(out, RowBefore);
  }

  ghost predicate OnePage(ps: seq<Problem>, now: Time) {
    forall qs, page, page' {:trigger IsPage(ps, now, page), IsPage(qs, now, page')} ::
      Permutes(ps, qs) && IsPage(ps, now, page) && IsPage(qs, now, page') ==> page == page'
  }

  /** The page is the same for every order of any list of rows exactly when every two rows that the pair rule links
      in one order are together by links that hold in every order. The program's lists keep each namespace's rows
      together, so for them less is enough. */
  lemma OnePageExactly(ps: seq<Problem>, now: Time)
    requires KeysOk(ps)
    ensures OnePage(ps, now) <==> OrderFree(ps)
  {
    if OrderFree(ps) {
      forall qs, page, page' | Permutes(ps, qs) && IsPage(ps, now, page) && IsPage(qs, now, page')
        ensures page == page'
      {
        OrderFreeSameGroups(ps, qs);
        SamePageExactly(ps, qs, now, page, page');
      }
    }
    if OnePage(ps, now) {
      forall qs | Permutes(ps, qs) ensures SameGroups(ps, qs) {
        var page := PageExists(ps, now);
        var page' := PageExists(qs, now);
        SamePageExactly(ps, qs, now, page, page');
      }
      OrderMattersExactly(ps);
    }
  }
}
