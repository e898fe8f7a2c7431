/** The rows of one namespace (problems.go): one for each workload with warnings, and every warning in one of
    them. */
module NamespaceRows {
  import opened Clock
  import opened Sequences
  import opened Strings
  import opened Events
  import opened Problems
  import opened Groups

  /** Since when a CronJob has been failing, when the resolver knows. */
  type Crons = (string, string) -> Option<Time>

  function Blank(key: string, scope: Scope, kind: string, title: string, namespaces: seq<string>, focus: string,
                 inferred: bool): Problem {
    Problem(key, scope, kind, title, namespaces, focus, New, false, false, inferred, [], 0, ZERO_TIME, ZERO_TIME, "",
        "", NoPattern, [])
  }

  // ---- Cascades and pods ---------------------------------------------------

  ghost predicate WarnsAtTwoDepths(members: map<ObjRef, Member>) {
    exists a, b :: a in members && b in members && members[a].warn && members[b].warn
        && members[a].depth != members[b].depth
  }

  ghost predicate Deepest(members: map<ObjRef, Member>, o: ObjRef) {
    o in members && forall a :: a in members ==> members[a].depth <= members[o].depth
  }

  /** Warnings at two or more levels of the chain, and every member of the deepest level failing. */
  ghost predicate Cascades(members: map<ObjRef, Member>) {
    WarnsAtTwoDepths(members) && forall o :: Deepest(members, o) ==> members[o].warn
  }

  ghost predicate DepthsOf(members: map<ObjRef, Member>, seen: seq<ObjRef>, warnDepths: set<nat>, maxDepth: nat) {
    && (forall o :: o in seen && o in members ==>
        members[o].depth <= maxDepth && (members[o].warn ==> members[o].depth in warnDepths))
    && (forall d :: d in warnDepths ==> exists o :: o in members && members[o].warn && members[o].depth == d)
    && (maxDepth == 0 || exists o :: o in members && members[o].depth == maxDepth)
  }

  method Depths(members: map<ObjRef, Member>) returns (warnDepths: set<nat>, maxDepth: nat)
    ensures |warnDepths| >= 2 <==> WarnsAtTwoDepths(members)
    ensures forall o :: Deepest(members, o) <==> o in members && members[o].depth == maxDepth
  {
    var order := IterationOrder(members.Keys);
    warnDepths, maxDepth := {}, 0;
    for i := 0 to |order|
      invariant DepthsOf(members, order[..i], warnDepths, maxDepth)
    {
      assert order[i] in order;
      PrefixMembers(order, i);
      var m := members[order[i]];
      if m.depth > maxDepth {
        maxDepth := m.depth;
      }
      if m.warn {
        warnDepths := warnDepths + {m.depth};
      }
    }
    assert order[..|order|] == order;
    TwoDepths(members, warnDepths);
    DeepestAt(members, maxDepth);
  }

  method AllWarnAt(members: map<ObjRef, Member>, depth: nat) returns (all: bool)
    ensures all <==> forall o :: o in members && members[o].depth == depth ==> members[o].warn
  {
    var order := IterationOrder(members.Keys);
    for i := 0 to |order|
      invariant forall o :: o in order[..i] && o in members && members[o].depth == depth ==> members[o].warn
    {
      assert order[i] in order;
      PrefixMembers(order, i);
      if members[order[i]].depth == depth && !members[order[i]].warn {
        return false;
      }
    }
    assert order[..|order|] == order;
    return true;
  }

  method FindCascade(members: map<ObjRef, Member>) returns (cascade: bool)
    ensures cascade <==> Cascades(members)
  {
    var warnDepths, maxDepth := Depths(members);
    cascade := false;
    if |warnDepths| >= 2 {
      cascade := AllWarnAt(members, maxDepth);
    }
  }

  lemma TwoDepths(members: map<ObjRef, Member>, depths: set<nat>)
    requires forall o :: o in members && members[o].warn ==> members[o].depth in depths
    requires forall d :: d in depths ==> exists o :: o in members && members[o].warn && members[o].depth == d
    ensures |depths| >= 2 <==> WarnsAtTwoDepths(members)
  {
    if |depths| >= 2 {
      var d :| d in depths;
      assert depths != {d};
      var e :| e in depths && e != d;
      var a :| a in members && members[a].warn && members[a].depth == d;
      var b :| b in members && members[b].warn && members[b].depth == e;
    }
    if WarnsAtTwoDepths(members) {
      var a, b :| a in members && b in members && members[a].warn && members[b].warn
          && members[a].depth != members[b].depth;
      assert {members[a].depth, members[b].depth} <= depths;
      SubsetSize({members[a].depth, members[b].depth}, depths);
    }
  }

  lemma DeepestAt(members: map<ObjRef, Member>, maxDepth: nat)
    requires forall o :: o in members ==> members[o].depth <= maxDepth
    requires maxDepth == 0 || exists o :: o in members && members[o].depth == maxDepth
    ensures forall o :: Deepest(members, o) <==> o in members && members[o].depth == maxDepth
  {
  }

  /** A failing Pod that no other failing Pod beats: a later warning, or as late with a smaller name. */
  ghost predicate IsNewestPod(members: map<ObjRef, Member>, pod: string) {
    var o := ObjRef("Pod", pod);
    && o in members && members[o].warn && members[o].last > ZERO_TIME
    && forall p :: p in members && p.kind == "Pod" && members[p].warn ==>
         members[p].last < members[o].last || (members[p].last == members[o].last && !StringLess(p.name, pod))
  }

  ghost predicate NewestPodSoFar(members: map<ObjRef, Member>, seen: seq<ObjRef>, pod: string, newest: Time) {
    if pod == "" then
      newest == ZERO_TIME && forall p :: p in seen && p in members && p.kind == "Pod" && members[p].warn ==>
          members[p].last <= ZERO_TIME
    else
      var o := ObjRef("Pod", pod);
      && o in members && members[o].warn && members[o].last == newest > ZERO_TIME
      && forall p :: p in seen && p in members && p.kind == "Pod" && members[p].warn ==>
           members[p].last < newest || (members[p].last == newest && !StringLess(p.name, pod))
  }

  /** The newest failing Pod, whatever order the members are visited in. */
  method NewestPod(members: map<ObjRef, Member>) returns (pod: string)
    requires forall o :: o in members ==> o.name != ""
    ensures IsPod(members, pod)
  {
    var order := IterationOrder(members.Keys);
    var newest := ZERO_TIME;
    pod := "";
    StringLessTotal();
    for i := 0 to |order|
      invariant NewestPodSoFar(members, order[..i], pod, newest)
    {
      assert order[i] in order;
      PrefixMembers(order, i);
      var o := order[i];
      var m := members[o];
      var newer := m.last > newest || (m.last == newest && pod != "" && StringLess(o.name, pod));
      if o.kind == "Pod" && m.warn && newer {
        assert o == ObjRef("Pod", o.name);
        pod, newest := o.name, m.last;
      }
    }
    assert order[..|order|] == order;
  }

  lemma NewestPodUnique(members: map<ObjRef, Member>, pod: string, other: string)
    requires IsNewestPod(members, pod) && IsNewestPod(members, other)
    ensures pod == other
  {
    StringLessTrichotomy(pod, other);
    assert ObjRef("Pod", pod) in members && ObjRef("Pod", other) in members;
  }

  /** The Pod a row points at: the newest failing one, or none when no Pod failed at a known time. */
  ghost predicate IsPod(members: map<ObjRef, Member>, pod: string) {
    if pod != "" then IsNewestPod(members, pod)
    else forall o :: o in members && o.kind == "Pod" && members[o].warn ==> members[o].last <= ZERO_TIME
  }

  lemma PodUnique(members: map<ObjRef, Member>, pod: string, other: string)
    requires IsPod(members, pod) && IsPod(members, other)
    ensures pod == other
  {
    if pod != "" && other != "" {
      NewestPodUnique(members, pod, other);
    } else {
      assert pod != "" ==> ObjRef("Pod", pod) in members;
      assert other != "" ==> ObjRef("Pod", other) in members;
    }
  }

  // ---- The row of a group --------------------------------------------------

  /** A row that groupPatterns and the ranking can rely on. */
  ghost predicate RowOk(p: Problem, now: Time) {
    && p.scope != Pattern
    && (p.scope == Namespace ==> Complete(p))
    && p.tier == TierAt(now, p.firstSeen)
    && Balanced(p)
  }

  function Inferred(g: Group): bool {
    g.hasLinks && !g.confirmedLink
  }

  function RowKind(g: Group): string {
    if g.root.kind == "" then "Workload" else g.root.kind
  }

  ghost predicate IsGroupRow(p: Problem, ns: string, g: Group, cron: Option<Time>, now: Time) {
    && g.warnings != []
    && p.key == "ns:" + ns + "/" + g.root.name && p.scope == Namespace && p.kind == RowKind(g) && p.title == g.root.name
    && p.namespaces == [ns] && p.focus == RowKind(g) + "/" + g.root.name && p.items == [] && p.inferred == Inferred(g)
    && p.message == NewestOf(g.warnings).message && p.why == NoPattern
    && p.occurrences == SumBy(g.warnings, EventCount)
    && p.reasons == ReasonTable(Tally(g.warnings))
    && (var first := Earliest(Map(FirstTime, g.warnings));
        p.firstSeen == if g.root.kind == "CronJob" && cron.Some? && cron.value < first then cron.value else first)
    && p.lastSeen == Latest(g.warnings[0].last, Map(LastTime, g.warnings))
    && p.idle == IdleAt(now, p.lastSeen)
    && (p.cascade <==> Cascades(g.members))
    && IsPod(g.members, p.pod)
    && RowOk(p, now)
  }

  /** A group has one row. */
  lemma GroupRowUnique(p: Problem, q: Problem, ns: string, g: Group, cron: Option<Time>, now: Time)
    requires IsGroupRow(p, ns, g, cron, now) && IsGroupRow(q, ns, g, cron, now)
    ensures p == q
  {
    PodUnique(g.members, p.pod, q.pod);
  }

  method GroupProblem(ns: string, g: Group, cron: Option<Time>, now: Time) returns (p: Problem)
    requires g.warnings != [] && forall o :: o in g.members ==> o.name != ""
    ensures IsGroupRow(p, ns, g, cron, now)
  {
    var kind := g.root.kind;
    if kind == "" {
      kind := "Workload";
    }
    var blank := Blank("ns:" + ns + "/" + g.root.name, Namespace, kind, g.root.name, [ns], kind + "/" + g.root.name,
        Inferred(g));
    p := FillFromWarnings(blank, g.warnings, now);
    FilledAccounts(blank, g.warnings, now);
    if g.root.kind == "CronJob" {
      if cron.Some? && cron.value < p.firstSeen {
        p := Timed(p.(firstSeen := cron.value), now);
      }
    }
    var pod := NewestPod(g.members);
    var cascade := FindCascade(g.members);
    p := p.(pod := pod, cascade := cascade);
  }

  // ---- The rows of a namespace ---------------------------------------------

  lemma RootsListed(es: seq<Event>, ns: string, chains: Chains, groups: map<ObjRef, Group>, cluster: seq<Event>,
                    order: seq<ObjRef>)
    requires GroupsOf(es, ns, chains, groups, cluster) && forall r :: r in order <==> r in groups
    ensures forall e :: e in Filter(es, MemberWarning) ==> RootOf(chains, ns)(e) in order
  {
    forall e | e in Filter(es, MemberWarning) ensures RootOf(chains, ns)(e) in order {
      FilterMembers(es, MemberWarning, e);
      assert GroupOk(es, ns, chains, groups, RootOf(chains, ns)(e));
    }
  }

  lemma MembersNamed(es: seq<Event>, ns: string, chains: Chains, r: ObjRef, g: Group)
    requires GroupOf(es, ns, chains, r, g)
    ensures forall o :: o in g.members ==> o.name != ""
  {
    forall o | o in g.members ensures o.name != "" {
      assert MemberOk(es, ns, chains, r, g.members, o);
    }
  }

  ghost predicate RowsOk(ps: seq<Problem>, now: Time) {
    forall p :: p in ps ==> RowOk(p, now)
  }

  /** Where a row comes from: a namespace, its events, and what is known of their owners. */
  datatype Source = Source(ns: string, es: seq<Event>, chains: Chains, crons: Crons, now: Time)

  ghost function WarningsUnder(src: Source, r: ObjRef): seq<Event> {
    Bucket(Filter(src.es, MemberWarning), RootOf(src.chains, src.ns), r)
  }

  /** p is the row of the group whose root is r. */
  ghost predicate RowFor(src: Source, r: ObjRef, p: Problem) {
    exists g :: GroupOf(src.es, src.ns, src.chains, r, g)
        && IsGroupRow(p, src.ns, g, src.crons(src.ns, r.name), src.now)
  }

  ghost predicate NamespaceRow(src: Source, p: Problem) {
    exists r :: RowFor(src, r, p)
  }

  ghost predicate AllFrom(src: Source, ps: seq<Problem>) {
    forall p {:trigger NamespaceRow(src, p)} :: p in ps ==> NamespaceRow(src, p)
  }

  /** The events of a namespace leave one group for each root. */
  lemma GroupUnique(src: Source, r: ObjRef, g: Group, h: Group)
    requires GroupOf(src.es, src.ns, src.chains, r, g) && GroupOf(src.es, src.ns, src.chains, r, h)
    ensures g == h
  {
    forall o ensures (o in g.members <==> o in h.members) && (o in g.members ==> g.members[o] == h.members[o]) {
      assert MemberOk(src.es, src.ns, src.chains, r, g.members, o);
      assert MemberOk(src.es, src.ns, src.chains, r, h.members, o);
    }
    assert g.members == h.members;
  }

  /** And so one row. */
  lemma RowUnique(src: Source, r: ObjRef, p: Problem, q: Problem)
    requires RowFor(src, r, p) && RowFor(src, r, q)
    ensures p == q
  {
    var g :| GroupOf(src.es, src.ns, src.chains, r, g) && IsGroupRow(p, src.ns, g, src.crons(src.ns, r.name), src.now);
    var h :| GroupOf(src.es, src.ns, src.chains, r, h) && IsGroupRow(q, src.ns, h, src.crons(src.ns, r.name), src.now);
    GroupUnique(src, r, g, h);
    GroupRowUnique(p, q, src.ns, g, src.crons(src.ns, r.name), src.now);
  }

  ghost function RootRow(src: Source): (ObjRef, Problem) -> bool {
    (r: ObjRef, p: Problem) => RowFor(src, r, p)
  }

  /** The rows are those of the roots listed, which are the ones with warnings. */
  ghost predicate RowsOfRoots(src: Source, roots: seq<ObjRef>, ps: seq<Problem>) {
    && Distinct(roots) && Pairwise(RootRow(src), roots, ps)
    && (forall r :: r in roots <==> WarningsUnder(src, r) != [])
  }

  lemma RowsOfRootsCover(src: Source, roots: seq<ObjRef>, ps: seq<Problem>)
    requires RowsOfRoots(src, roots, ps)
    ensures AllFrom(src, ps) && CoversAll(src, ps)
  {
    forall p | p in ps ensures NamespaceRow(src, p) {
      var k :| 0 <= k < |ps| && ps[k] == p;
      assert RootRow(src)(roots[k], ps[k]);
    }
    forall r ensures Covers(src, ps, r) {
      if WarningsUnder(src, r) != [] {
        var k :| 0 <= k < |roots| && roots[k] == r;
        assert ps[k] in ps && RootRow(src)(r, ps[k]);
      }
    }
  }

  /** A workload with warnings has a row. */
  ghost predicate Covers(src: Source, ps: seq<Problem>, r: ObjRef) {
    WarningsUnder(src, r) != [] ==> exists p :: p in ps && RowFor(src, r, p)
  }

  ghost predicate CoversAll(src: Source, ps: seq<Problem>) {
    forall r {:trigger Covers(src, ps, r)} :: Covers(src, ps, r)
  }

  lemma RowFits(src: Source, r: ObjRef, g: Group, p: Problem)
    requires GroupOf(src.es, src.ns, src.chains, r, g) && IsGroupRow(p, src.ns, g, src.crons(src.ns, r.name), src.now)
    ensures RowFor(src, r, p) && NamespaceRow(src, p)
    ensures RowOk(p, src.now) && p.occurrences == SumBy(WarningsUnder(src, r), EventCount)
  {
    assert RowFor(src, r, p);
  }

  lemma WarnedRootListed(src: Source, groups: map<ObjRef, Group>, cluster: seq<Event>, order: seq<ObjRef>, r: ObjRef)
    requires GroupsOf(src.es, src.ns, src.chains, groups, cluster) && forall r :: r in order <==> r in groups
    requires WarningsUnder(src, r) != []
    ensures r in order
  {
    RootsListed(src.es, src.ns, src.chains, groups, cluster, order);
    var e := WarningsUnder(src, r)[0];
    BucketMembers(Filter(src.es, MemberWarning), RootOf(src.chains, src.ns), r, e);
  }

  /** The rows of the roots visited so far. */
  ghost predicate RowsSoFar(src: Source, seen: seq<ObjRef>, roots: seq<ObjRef>, ps: seq<Problem>) {
    && Distinct(roots) && Pairwise(RootRow(src), roots, ps) && RowsOk(ps, src.now)
    && (forall r :: r in roots <==> r in seen && WarningsUnder(src, r) != [])
  }

  lemma RowsOkAppend(ps: seq<Problem>, p: Problem, now: Time)
    requires RowsOk(ps, now) && RowOk(p, now)
    ensures RowsOk(ps + [p], now)
  {
  }

  lemma RowAdded(src: Source, order: seq<ObjRef>, i: nat, roots: seq<ObjRef>, ps: seq<Problem>, p: Problem)
    requires i < |order| && order[i] !in order[..i] && RowsSoFar(src, order[..i], roots, ps)
    requires RowFor(src, order[i], p) && RowOk(p, src.now) && WarningsUnder(src, order[i]) != []
    ensures RowsSoFar(src, order[..i + 1], roots + [order[i]], ps + [p])
  {
    PrefixMembers(order, i);
    DistinctAppend(roots, order[i]);
    PairwiseAppend(RootRow(src), roots, ps, order[i], p);
    RowsOkAppend(ps, p, src.now);
  }

  lemma NoRowAdded(src: Source, order: seq<ObjRef>, i: nat, roots: seq<ObjRef>, ps: seq<Problem>)
    requires i < |order| && RowsSoFar(src, order[..i], roots, ps) && WarningsUnder(src, order[i]) == []
    ensures RowsSoFar(src, order[..i + 1], roots, ps)
  {
    PrefixMembers(order, i);
  }

  /** The row of one group, when it has a warning. */
  method GroupRow(src: Source, groups: map<ObjRef, Group>, order: seq<ObjRef>, i: nat, ghost roots: seq<ObjRef>,
                  before: seq<Problem>)
    returns (ps: seq<Problem>, ghost roots': seq<ObjRef>)
    requires i < |order| && order[i] !in order[..i] && RowsSoFar(src, order[..i], roots, before)
    requires order[i] in groups && GroupOf(src.es, src.ns, src.chains, order[i], groups[order[i]])
    ensures RowsSoFar(src, order[..i + 1], roots', ps)
    ensures SumBy(ps, Occurrences) == SumBy(before, Occurrences) + TotalUnder(src)(order[i])
  {
    var r := order[i];
    var g := groups[r];
    assert g.warnings == WarningsUnder(src, r);
    ps, roots' := before, roots;
    if |g.warnings| != 0 {
      MembersNamed(src.es, src.ns, src.chains, r, g);
      var p := GroupProblem(src.ns, g, src.crons(src.ns, g.root.name), src.now);
      RowFits(src, r, g, p);
      SumByAppend(ps, Occurrences, p);
      RowAdded(src, order, i, roots, before, p);
      ps, roots' := ps + [p], roots' + [r];
    } else {
      NoRowAdded(src, order, i, roots, before);
    }
  }

  lemma EveryRootSeen(src: Source, groups: map<ObjRef, Group>, cluster: seq<Event>, order: seq<ObjRef>,
                      roots: seq<ObjRef>,
                      ps: seq<Problem>)
    requires GroupsOf(src.es, src.ns, src.chains, groups, cluster) && forall r :: r in order <==> r in groups
    requires RowsSoFar(src, order, roots, ps)
    ensures RowsOfRoots(src, roots, ps)
  {
    forall r | WarningsUnder(src, r) != [] ensures r in order {
      WarnedRootListed(src, groups, cluster, order, r);
    }
  }

  ghost function TotalUnder(src: Source): ObjRef -> int {
    (r: ObjRef) => SumBy(WarningsUnder(src, r), EventCount)
  }

  lemma RootsTotal(src: Source, groups: map<ObjRef, Group>, cluster: seq<Event>, order: seq<ObjRef>)
    requires GroupsOf(src.es, src.ns, src.chains, groups, cluster)
    requires Distinct(order) && forall r :: r in order <==> r in groups
    ensures SumBy(order, TotalUnder(src)) == SumBy(Filter(src.es, MemberWarning), EventCount)
  {
    var key := RootOf(src.chains, src.ns);
    RootsListed(src.es, src.ns, src.chains, groups, cluster, order);
    BucketTotals(Filter(src.es, MemberWarning), key, EventCount, order);
    SumByCongruent(order, TotalUnder(src), r => SumBy(Bucket(Filter(src.es, MemberWarning), key, r), EventCount));
  }

  lemma GroupListed(src: Source, groups: map<ObjRef, Group>, cluster: seq<Event>, r: ObjRef)
    requires GroupsOf(src.es, src.ns, src.chains, groups, cluster) && r in groups
    ensures GroupOf(src.es, src.ns, src.chains, r, groups[r])
  {
    assert GroupOk(src.es, src.ns, src.chains, groups, r);
  }

  method WarnedRows(src: Source, groups: map<ObjRef, Group>, ghost cluster: seq<Event>)
    returns (ps: seq<Problem>, ghost roots: seq<ObjRef>)
    requires GroupsOf(src.es, src.ns, src.chains, groups, cluster)
    ensures RowsOk(ps, src.now) && RowsOfRoots(src, roots, ps)
    ensures SumBy(ps, Occurrences) == SumBy(Filter(src.es, MemberWarning), EventCount)
  {
    var order := IterationOrder(groups.Keys);
    ps, roots := [], [];
    for i := 0 to |order|
      invariant RowsSoFar(src, order[..i], roots, ps)
      invariant SumBy(ps, Occurrences) == SumBy(order[..i], TotalUnder(src))
    {
      assert order[i] in order;
      GroupListed(src, groups, cluster, order[i]);
      SumByStep(order, TotalUnder(src), i);
      ps, roots := GroupRow(src, groups, order, i, roots, ps);
    }
    assert order[..|order|] == order;
    EveryRootSeen(src, groups, cluster, order, roots, ps);
    RootsTotal(src, groups, cluster, order);
  }

  /** The rows of a namespace's groups: one for each workload with a warning, and every warning in one row. */
  method NamespaceProblems(src: Source) returns (ps: seq<Problem>, cluster: seq<Event>, ghost roots: seq<ObjRef>)
    requires ChainsOk(src.chains)
    ensures RowsOk(ps, src.now) && RowsOfRoots(src, roots, ps)
    ensures AllFrom(src, ps) && CoversAll(src, ps)
    ensures cluster == Filter(src.es, ClusterWarning)
    ensures SumBy(ps, Occurrences) == SumBy(Filter(src.es, MemberWarning), EventCount)
  {
    var groups: map<ObjRef, Group>;
    groups, cluster := GroupEvents(src.ns, src.es, src.chains);
    ps, roots := WarnedRows(src, groups, cluster);
    RowsOfRootsCover(src, roots, ps);
  }
}
