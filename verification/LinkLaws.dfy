/** What groupPatterns (problems.go) merges, told by the rows' own fields and the warnings they were made of. */
module LinkLaws {
  import opened Clock
  import opened Sequences
  import opened Events
  import opened UnionFind
  import opened Problems
  import opened Patterns
  import opened PatternLaws
  import opened OrderLaws
  import opened Groups
  import opened NamespaceRows
  import opened RowLaws
  import opened WorkloadLaws

  // ---- The rules -----------------------------------------------------------

  /** At most ten seconds apart; or so far that the 64-bit difference wraps around. */
  ghost predicate StartedClose(a: Time, b: Time) {
    -10_000_000_000 <= a - b <= 10_000_000_000 || b - a >= 0x8000_0000_0000_0000
  }

  /** Rows of two namespaces and one tier that started close together, or are one workload that fails in one way. */
  ghost predicate Alike(a: Problem, b: Problem)
    requires Complete(a) && Complete(b)
  {
    && a.namespaces[0] != b.namespaces[0] && a.tier == b.tier
    && (|| StartedClose(a.firstSeen, b.firstSeen)
        || (a.title == b.title && a.reasons[0].reason == b.reasons[0].reason))
  }

  /** The reasons that point below the workloads. */
  ghost predicate Infrastructure(r: string) {
    r in {
      "FailedToRetrieveImagePullSecret", "FailedScheduling", "FailedMount", "FailedAttachVolume",
      "FailedCreatePodSandBox", "NetworkNotReady", "DNSConfigForming", "Evicted"
    }
  }

  /** A namespace row of that tier with that main reason. */
  ghost predicate Suffers(ps: seq<Problem>, r: string, tier: Tier, i: nat) {
    i < |ps| && ps[i].scope == Namespace && ps[i].tier == tier && ps[i].reasons != [] && ps[i].reasons[0].reason == r
  }

  ghost predicate InTwo(ps: seq<Problem>, i: nat, j: nat) {
    i < |ps| && j < |ps| && ps[i].namespaces != [] && ps[j].namespaces != []
        && ps[i].namespaces[0] != ps[j].namespaces[0]
  }

  ghost predicate InThree(ps: seq<Problem>, x: nat, y: nat, z: nat) {
    InTwo(ps, x, y) && InTwo(ps, y, z) && InTwo(ps, x, z)
  }

  /** Three namespaces suffer from one reason in one tier. */
  ghost predicate Widespread(ps: seq<Problem>, r: string, tier: Tier) {
    exists x: nat, y: nat, z: nat ::
      Suffers(ps, r, tier, x) && Suffers(ps, r, tier, y) && Suffers(ps, r, tier, z) && InThree(ps, x, y, z)
  }

  ghost predicate Outage(ps: seq<Problem>, r: string, tier: Tier) {
    Infrastructure(r) && Widespread(ps, r, tier)
  }

  ghost predicate AllComplete(ps: seq<Problem>) {
    forall i :: 0 <= i < |ps| && ps[i].scope == Namespace ==> Complete(ps[i])
  }

  lemma PairExactly(a: Problem, b: Problem)
    requires Complete(a) && Complete(b)
    ensures PairRule(a, b) <==> Alike(a, b)
  {
    StartedTogetherExactly(a.firstSeen, b.firstSeen);
  }

  lemma BucketExactly(ps: seq<Problem>, r: string, tier: Tier, i: nat)
    requires AllComplete(ps)
    ensures InBucket(ps, r, tier, i) <==> Suffers(ps, r, tier, i)
  {
  }

  lemma ThreeIn<T(!new)>(s: set<T>)
    ensures |s| >= 3 <==> exists x, y, z :: x in s && y in s && z in s && x != y && y != z && x != z
  {
    if |s| >= 3 {
      var x :| x in s;
      assert |s - {x}| >= 2;
      var y :| y in s - {x};
      assert |s - {x} - {y}| >= 1;
      var z :| z in s - {x} - {y};
    }
    if x, y, z :| x in s && y in s && z in s && x != y && y != z && x != z {
      SubsetSize({x, y, z}, s);
    }
  }

  lemma HomeOf(ps: seq<Problem>, r: string, tier: Tier, home: string) returns (i: nat)
    requires AllComplete(ps) && home in BucketHomes(ps, r, tier)
    ensures Suffers(ps, r, tier, i) && ps[i].namespaces == [home]
  {
    i :| i < |ps| && InBucket(ps, r, tier, i) && Home(ps[i]) == home;
    BucketExactly(ps, r, tier, i);
  }

  lemma HomeThere(ps: seq<Problem>, r: string, tier: Tier, i: nat)
    requires AllComplete(ps) && Suffers(ps, r, tier, i)
    ensures ps[i].namespaces[0] in BucketHomes(ps, r, tier)
  {
    BucketExactly(ps, r, tier, i);
  }

  lemma HomesExactly(ps: seq<Problem>, r: string, tier: Tier)
    requires AllComplete(ps)
    ensures |BucketHomes(ps, r, tier)| >= 3 <==> Widespread(ps, r, tier)
  {
    var homes := BucketHomes(ps, r, tier);
    ThreeIn(homes);
    if a, b, c :| a in homes && b in homes && c in homes && a != b && b != c && a != c {
      var x := HomeOf(ps, r, tier, a);
      var y := HomeOf(ps, r, tier, b);
      var z := HomeOf(ps, r, tier, c);
      assert InThree(ps, x, y, z);
    }
    if x: nat, y: nat, z: nat :|
      Suffers(ps, r, tier, x) && Suffers(ps, r, tier, y) && Suffers(ps, r, tier, z) && InThree(ps, x, y, z) {
      HomeThere(ps, r, tier, x);
      HomeThere(ps, r, tier, y);
      HomeThere(ps, r, tier, z);
    }
  }

  /** Two rows are linked exactly when they are alike, the earlier listed first, or suffer from one outage. */
  lemma LinkExactly(ps: seq<Problem>, i: nat, j: nat)
    requires AllComplete(ps) && i < |ps| && j < |ps|
    ensures (i, j) in Links(ps) <==>
            && ps[i].scope == Namespace && ps[j].scope == Namespace
            && (|| (i < j && Alike(ps[i], ps[j]))
                || exists r :: Suffers(ps, r, ps[i].tier, i) && Suffers(ps, r, ps[i].tier, j)
                    && Outage(ps, r, ps[i].tier))
  {
    if ps[i].scope == Namespace && ps[j].scope == Namespace {
      PairExactly(ps[i], ps[j]);
      InfraExactly(ps, i, j);
    }
  }

  lemma InfraExactly(ps: seq<Problem>, i: nat, j: nat)
    requires AllComplete(ps) && i < |ps| && j < |ps| && ps[i].scope == Namespace && ps[j].scope == Namespace
    ensures InfraRule(ps, i, j) <==>
            exists r :: Suffers(ps, r, ps[i].tier, i) && Suffers(ps, r, ps[i].tier, j) && Outage(ps, r, ps[i].tier)
  {
    var r := ps[i].reasons[0].reason;
    BucketExactly(ps, r, ps[i].tier, j);
    HomesExactly(ps, r, ps[i].tier);
    assert Suffers(ps, r, ps[i].tier, i);
  }

  // ---- What is merged ------------------------------------------------------

  lemma Joined(ps: seq<Problem>, i: nat, j: nat)
    requires IsRow(ps, i) && IsRow(ps, j) && ((i, j) in Links(ps) || (j, i) in Links(ps))
    ensures SameCause(ps, i, j)
  {
    ConnectedLink(Links(ps), i, j);
  }

  /** The same main reason: the one with the largest total among each row's warnings, of equals the least. */
  ghost predicate SameMain(wa: seq<Event>, wb: seq<Event>) {
    exists r :: IsMain(wa, r) && IsMain(wb, r)
  }

  lemma SameMainExactly(a: Problem, wa: seq<Event>, b: Problem, wb: seq<Event>)
    requires Complete(a) && Complete(b) && ReasonsOf(wa, a.reasons) && ReasonsOf(wb, b.reasons)
    ensures a.reasons[0].reason == b.reasons[0].reason <==> SameMain(wa, wb)
  {
    MainOnTop(wa, a.reasons);
    MainOnTop(wb, b.reasons);
    if r :| IsMain(wa, r) && IsMain(wb, r) {
      OneMain(wa, r, a.reasons[0].reason);
      OneMain(wb, r, b.reasons[0].reason);
    }
  }

  /** One workload in two namespaces and one tier, whose warnings have the same main reason: one cause, wherever the
      two rows are listed. */
  lemma SameWorkloadTogether(ps: seq<Problem>, i: nat, wi: seq<Event>, j: nat, wj: seq<Event>)
    requires AllComplete(ps) && IsRow(ps, i) && IsRow(ps, j)
    requires ReasonsOf(wi, ps[i].reasons) && ReasonsOf(wj, ps[j].reasons)
    requires ps[i].tier == ps[j].tier && ps[i].title == ps[j].title && InTwo(ps, i, j) && SameMain(wi, wj)
    ensures SameCause(ps, i, j)
  {
    SameMainExactly(ps[i], wi, ps[j], wj);
    LinkExactly(ps, i, j);
    LinkExactly(ps, j, i);
    Joined(ps, i, j);
  }

  /** So it is of two workloads' rows: those of one name whose own warnings have the same main reason. */
  lemma WorkloadsTogether(ps: seq<Problem>, i: nat, si: Source, ri: ObjRef, j: nat, sj: Source, rj: ObjRef)
    requires AllComplete(ps) && i < |ps| && j < |ps| && RowFor(si, ri, ps[i]) && RowFor(sj, rj, ps[j])
    requires ChainsOk(si.chains) && ChainsOk(sj.chains)
    requires si.ns != sj.ns && ri.name == rj.name && ps[i].tier == ps[j].tier
    requires SameMain(WarningsUnder(si, ri), WarningsUnder(sj, rj))
    ensures SameCause(ps, i, j)
  {
    WorkloadTells(si, ri, ps[i]);
    WorkloadTells(sj, rj, ps[j]);
    SameWorkloadTogether(ps, i, WarningsUnder(si, ri), j, WarningsUnder(sj, rj));
  }

  /** Three namespaces whose warnings have the same infrastructure reason as the main one, in one tier: one cause. */
  lemma OutageTogether(ps: seq<Problem>, i: nat, wi: seq<Event>, j: nat, wj: seq<Event>, k: nat, wk: seq<Event>,
                       r: string)
    requires AllComplete(ps) && IsRow(ps, i) && IsRow(ps, j) && IsRow(ps, k) && InThree(ps, i, j, k)
    requires ReasonsOf(wi, ps[i].reasons) && ReasonsOf(wj, ps[j].reasons) && ReasonsOf(wk, ps[k].reasons)
    requires ps[i].tier == ps[j].tier == ps[k].tier
    requires Infrastructure(r) && IsMain(wi, r) && IsMain(wj, r) && IsMain(wk, r)
    ensures SameCause(ps, i, j) && SameCause(ps, i, k)
  {
    MainIs(ps, i, wi, r);
    MainIs(ps, j, wj, r);
    MainIs(ps, k, wk, r);
    assert Widespread(ps, r, ps[i].tier);
    LinkExactly(ps, i, j);
    LinkExactly(ps, i, k);
    Joined(ps, i, j);
    Joined(ps, i, k);
  }

  lemma MainIs(ps: seq<Problem>, i: nat, ws: seq<Event>, r: string)
    requires AllComplete(ps) && IsRow(ps, i) && ReasonsOf(ws, ps[i].reasons) && IsMain(ws, r)
    ensures Suffers(ps, r, ps[i].tier, i)
  {
    MainOnTop(ws, ps[i].reasons);
    OneMain(ws, ps[i].reasons[0].reason, r);
  }

  // ---- Two rows ------------------------------------------------------------

  lemma NoOutage(ps: seq<Problem>, r: string, tier: Tier)
    requires |ps| == 2
    ensures !Widespread(ps, r, tier)
  {
  }

  lemma TwoLinked(ps: seq<Problem>, i: nat, j: nat)
    requires |ps| == 2 && AllComplete(ps) && IsRow(ps, 0) && IsRow(ps, 1) && i < 2 && j < 2
    ensures (i, j) in Links(ps) <==> i < j && Alike(ps[0], ps[1])
  {
    LinkExactly(ps, i, j);
    forall r, tier ensures !Widespread(ps, r, tier) {
      NoOutage(ps, r, tier);
    }
  }

  lemma TwoMerged(ps: seq<Problem>, i: nat)
    requires |ps| == 2 && AllComplete(ps) && IsRow(ps, 0) && IsRow(ps, 1) && i < 2
    ensures Merged(ps, i) <==> Alike(ps[0], ps[1])
  {
    TwoLinked(ps, 0, 1);
    if Alike(ps[0], ps[1]) {
      Joined(ps, 0, 1);
      Joined(ps, 1, 0);
      assert SameCause(ps, i, 1 - i);
    }
    if j: nat :| SameCause(ps, i, j) && Home(ps[i]) != Home(ps[j]) {
      var z := ConnectedHasLink(Links(ps), i, j);
      TwoLinked(ps, i, z);
      TwoLinked(ps, z, i);
    }
  }

  /** Two rows become one exactly when they are alike. */
  lemma TwoRowsExactly(a: Problem, wa: seq<Event>, b: Problem, wb: seq<Event>, now: Time, out: seq<Problem>)
    requires a.scope == Namespace && b.scope == Namespace && Complete(a) && Complete(b)
    requires ReasonsOf(wa, a.reasons) && ReasonsOf(wb, b.reasons) && Grouping([a, b], now, out)
    ensures |out| == 1 <==>
            && a.namespaces[0] != b.namespaces[0] && a.tier == b.tier
            && (StartedClose(a.firstSeen, b.firstSeen) || (a.title == b.title && SameMain(wa, wb)))
  {
    SameMainExactly(a, wa, b, wb);
    TwoMerged([a, b], 0);
    TwoMerged([a, b], 1);
    TwoGrouped([a, b], now, out);
  }

  lemma TwoGrouped(ps: seq<Problem>, now: Time, out: seq<Problem>)
    requires |ps| == 2 && Grouping(ps, now, out) && (Merged(ps, 0) <==> Merged(ps, 1))
    ensures |out| == 1 <==> Merged(ps, 0)
  {
    var groups, rest :| GroupedBy(ps, now, groups, rest, out);
    assert Placed(ps, groups, rest, 0) && Placed(ps, groups, rest, 1);
    if Merged(ps, 0) {
      OneGroup(ps, now, groups, rest, out);
      if rest != [] {
        RestIsUnmerged(ps, groups, rest);
      }
    } else {
      NoGroups(ps, now, groups, rest, out);
      AscendingUnique(rest, [0, 1]);
    }
  }

  lemma OneGroup(ps: seq<Problem>, now: Time, groups: seq<seq<nat>>, rest: seq<nat>, out: seq<Problem>)
    requires |ps| == 2 && GroupedBy(ps, now, groups, rest, out) && Merged(ps, 0)
    ensures |groups| == 1
  {
    assert Placed(ps, groups, rest, 0);
    var k :| 0 <= k < |groups| && 0 in groups[k];
    forall l | 0 <= l < |groups| ensures groups[l] == groups[k] {
      MadeGroup(ps, now, groups, out[..|groups|], k);
      MadeGroup(ps, now, groups, out[..|groups|], l);
      FirstTwo(ps, groups[l]);
      SharedComponent(ps, groups[k], groups[l], 0);
    }
    if |groups| > 1 {
      assert groups[0] == groups[1];
    }
  }

  /** Of two merged rows, every component has the first. */
  lemma FirstTwo(ps: seq<Problem>, c: seq<nat>)
    requires |ps| == 2 && IsComponent(ps, c) && Merged(ps, 0)
    ensures 0 in c
  {
    MergedExactly(ps, 0);
    var j: nat :| j != 0 && SameCause(ps, 0, j);
    ComponentRow(ps, c, c[0]);
    ConnectedSym(Links(ps), 0, j);
    assert c[0] in c <==> SameCause(ps, c[0], c[0]);
    assert 0 in c <==> SameCause(ps, c[0], 0);
    ConnectedRefl(Links(ps), 0);
  }

  lemma RestIsUnmerged(ps: seq<Problem>, groups: seq<seq<nat>>, rest: seq<nat>)
    requires rest != []
    requires forall i: nat {:trigger Placed(ps, groups, rest, i)} :: Placed(ps, groups, rest, i)
    ensures rest[0] < |ps| && !Merged(ps, rest[0])
  {
    assert rest[0] in rest && Placed(ps, groups, rest, rest[0]);
  }

  lemma NoGroups(ps: seq<Problem>, now: Time, groups: seq<seq<nat>>, rest: seq<nat>, out: seq<Problem>)
    requires |ps| == 2 && GroupedBy(ps, now, groups, rest, out) && !Merged(ps, 0) && !Merged(ps, 1)
    ensures groups == [] && forall i: nat :: i in rest <==> i < 2
  {
    forall i: nat ensures i in rest <==> i < 2 {
      assert Placed(ps, groups, rest, i);
    }
    if groups != [] {
      GroupMerged(ps, now, groups, rest, out);
    }
  }

  lemma GroupMerged(ps: seq<Problem>, now: Time, groups: seq<seq<nat>>, rest: seq<nat>, out: seq<Problem>)
    requires GroupedBy(ps, now, groups, rest, out) && groups != []
    ensures exists i: nat :: i < |ps| && Merged(ps, i)
  {
    MadeGroup(ps, now, groups, out[..|groups|], 0);
    FirstIsMerged(ps, groups, rest, 0);
    assert groups[0][0] in groups[0];
    assert groups[0][0] < |ps| && Merged(ps, groups[0][0]);
  }
}
