/** buildProblems (problems.go): the events of every namespace become ranked rows, and no occurrence of a
    warning is lost or counted twice on the way. */
module Overview {
  import opened Clock
  import opened Sequences
  import opened Strings
  import opened Tables
  import opened Events
  import opened Merging
  import opened NamespaceRows
  import opened Problems
  import opened Groups
  import opened Patterns
  import opened PatternLaws
  import opened PageLaws
  import opened BlockLaws

  // ---- Cluster-scoped rows -------------------------------------------------

  function KindReason(e: Event): (string, string) {
    (e.kind, e.reason)
  }

  function FiledUnder(groups: map<(string, string), seq<Event>>, k: (string, string)): seq<Event> {
    if k in groups then groups[k] else []
  }

  /** The warnings of each kind and reason, and nothing without a warning. */
  ghost predicate FiledByCause(warnings: seq<Event>, groups: map<(string, string), seq<Event>>) {
    forall k {:trigger FiledUnder(groups, k)} ::
      FiledUnder(groups, k) == Bucket(warnings, KindReason, k) && (k in groups <==> FiledUnder(groups, k) != [])
  }

  lemma FiledByCauseStep(warnings: seq<Event>, i: nat, groups: map<(string, string), seq<Event>>)
    requires i < |warnings| && FiledByCause(warnings[..i], groups)
    ensures var k := KindReason(warnings[i]); FiledByCause(warnings[..i + 1],
        groups[k := FiledUnder(groups, k) + [warnings[i]]])
  {
    var key := KindReason(warnings[i]);
    var groups' := groups[key := FiledUnder(groups, key) + [warnings[i]]];
    PrefixStep(warnings, i);
    forall k ensures FiledUnder(groups', k) == Bucket(warnings[..i + 1], KindReason, k)
        && (k in groups' <==> FiledUnder(groups', k) != []) {
      BucketAppend(warnings[..i], KindReason, k, warnings[i]);
      assert FiledUnder(groups, k) == Bucket(warnings[..i], KindReason, k);
    }
  }

  lemma NoneFiled()
    ensures FiledByCause([], map[])
  {
    forall k ensures Bucket([], KindReason, k) == [] {
      BucketEmpty([], KindReason, k);
    }
  }

  method BucketByKindReason(warnings: seq<Event>) returns (groups: map<(string, string), seq<Event>>)
    ensures FiledByCause(warnings, groups)
  {
    groups := map[];
    NoneFiled();
    for i := 0 to |warnings|
      invariant FiledByCause(warnings[..i], groups)
    {
      FiledByCauseStep(warnings, i, groups);
      var k := KindReason(warnings[i]);
      groups := groups[k := FiledUnder(groups, k) + [warnings[i]]];
    }
    assert warnings[..|warnings|] == warnings;
  }

  function ClusterBlank(k: (string, string), es: seq<Event>): Problem
    requires es != []
  {
    Blank("cluster:" + k.0 + "/" + k.1, Cluster, k.0, "", [], k.0 + "/" + es[0].objectName, false)
  }

  /** The row of one kind and reason, from its warnings in the order they are shown. */
  ghost function ClusterRow(k: (string, string), es: seq<Event>, now: Time): Problem
    requires es != []
  {
    Filled(ClusterBlank(k, es), es, now)
  }

  /** p is the row of these warnings, newest first. */
  ghost predicate IsClusterRow(p: Problem, k: (string, string), warnings: seq<Event>, now: Time) {
    exists es :: es != [] && Permutes(es, warnings) && Sorted(es, NewestFirst) && p == ClusterRow(k, es, now)
  }

  lemma ClusterRowOk(p: Problem, k: (string, string), warnings: seq<Event>, now: Time)
    requires IsClusterRow(p, k, warnings, now)
    ensures RowOk(p, now) && p.scope == Cluster && p.key == "cluster:" + k.0 + "/" + k.1
    ensures p.occurrences == SumBy(warnings, EventCount)
  {
    var es: seq<Event> :| es != [] && Permutes(es, warnings) && Sorted(es, NewestFirst) && p == ClusterRow(k, es, now);
    SumByPermutation(es, warnings, EventCount);
    FilledAccounts(ClusterBlank(k, es), es, now);
  }

  method ClusterProblem(k: (string, string), warnings: seq<Event>, now: Time) returns (p: Problem)
    requires warnings != []
    ensures IsClusterRow(p, k, warnings, now)
  {
    var es := SortNewestFirst(warnings);
    PermutesMembers(es, warnings);
    p := FillFromWarnings(ClusterBlank(k, es), es, now);
  }

  ghost function CauseRow(warnings: seq<Event>, now: Time): ((string, string), Problem) -> bool {
    (k: (string, string), p: Problem) => IsClusterRow(p, k, Bucket(warnings, KindReason, k), now)
  }

  /** The rows are those of the kinds and reasons listed, each of all its warnings. */
  ghost predicate RowsOfCauses(warnings: seq<Event>, now: Time, causes: seq<(string, string)>, ps: seq<Problem>) {
    && Distinct(causes) && Pairwise(CauseRow(warnings, now), causes, ps)
    && (forall k :: k in causes <==> Bucket(warnings, KindReason, k) != [])
  }

  /** The warnings about cluster-scoped objects: one row for each kind and reason, with the occurrences of all
      its warnings. */
  method ClusterProblems(warnings: seq<Event>, now: Time)
    returns (ps: seq<Problem>, ghost causes: seq<(string, string)>)
    ensures RowsOfCauses(warnings, now, causes, ps)
    ensures forall i :: 0 <= i < |ps| == |causes| ==>
        ps[i].occurrences == SumBy(Bucket(warnings, KindReason, causes[i]), EventCount)
    ensures forall p :: p in ps ==> RowOk(p, now) && p.scope == Cluster
    ensures SumBy(ps, Occurrences) == SumBy(warnings, EventCount)
  {
    var groups := BucketByKindReason(warnings);
    var order := IterationOrder(groups.Keys);
    ps, causes := [], order;
    for i := 0 to |order|
      invariant Pairwise(CauseRow(warnings, now), order[..i], ps)
    {
      assert order[i] in order && FiledUnder(groups, order[i]) == Bucket(warnings, KindReason, order[i]);
      var p := ClusterProblem(order[i], groups[order[i]], now);
      PairwiseAppend(CauseRow(warnings, now), order[..i], ps, order[i], p);
      PrefixStep(order, i);
      ps := ps + [p];
    }
    assert order[..|order|] == order;
    forall k ensures k in causes <==> Bucket(warnings, KindReason, k) != [] {
      assert FiledUnder(groups, k) == Bucket(warnings, KindReason, k);
    }
    ClusterTotals(warnings, now, causes, ps);
  }

  lemma ClusterTotals(warnings: seq<Event>, now: Time, causes: seq<(string, string)>, ps: seq<Problem>)
    requires RowsOfCauses(warnings, now, causes, ps)
    ensures forall i :: 0 <= i < |ps| ==>
        ps[i].occurrences == SumBy(Bucket(warnings, KindReason, causes[i]), EventCount)
    ensures forall p :: p in ps ==> RowOk(p, now) && p.scope == Cluster
    ensures SumBy(ps, Occurrences) == SumBy(warnings, EventCount)
  {
    var total := k => SumBy(Bucket(warnings, KindReason, k), EventCount);
    forall i | 0 <= i < |ps|
      ensures RowOk(ps[i], now) && ps[i].scope == Cluster && Occurrences(ps[i]) == total(causes[i])
    {
      assert CauseRow(warnings, now)(causes[i], ps[i]);
      ClusterRowOk(ps[i], causes[i], Bucket(warnings, KindReason, causes[i]), now);
    }
    SumByPairs(ps, Occurrences, causes, total);
    forall e | e in warnings ensures KindReason(e) in causes {
      BucketMembers(warnings, KindReason, KindReason(e), e);
    }
    BucketTotals(warnings, KindReason, EventCount, causes);
  }

  // ---- The whole overview --------------------------------------------------

  predicate Counted(e: Event) {
    Named(e) && IsWarning(e)
  }

  /** The occurrences a namespace's warnings report. */
  function WarningTotal(es: seq<Event>): int {
    SumBy(Filter(es, Counted), EventCount)
  }

  lemma {:induction false} WarningTotalSplits(es: seq<Event>)
    ensures WarningTotal(es) == SumBy(Filter(es, MemberWarning), EventCount)
        + SumBy(Filter(es, ClusterWarning), EventCount)
  {
    if es != [] {
      WarningTotalSplits(es[..|es| - 1]);
      FilterSum(es, Counted, EventCount);
      FilterSum(es, MemberWarning, EventCount);
      FilterSum(es, ClusterWarning, EventCount);
    }
  }

  ghost function Totals(events: map<string, seq<Event>>): map<string, int> {
    map ns | ns in events :: WarningTotal(events[ns])
  }

  lemma FlatSums(a: seq<Problem>, b: seq<Problem>, now: Time)
    requires RowsOk(a, now) && RowsOk(b, now)
    ensures RowsOk(a + b, now)
    ensures SumBy(a + b, Occurrences) == SumBy(a, Occurrences) + SumBy(b, Occurrences)
  {
    SumByConcat(a, b, Occurrences);
  }

  /** What is known of each namespace. */
  function SourceOf(events: map<string, seq<Event>>, chains: Chains, crons: Crons, now: Time): string -> Source {
    (ns: string) => Source(ns, if ns in events then events[ns] else [], chains, crons, now)
  }

  /** Every namespace row is some namespace's own, and every workload with warnings has one. */
  ghost predicate RowsOf(events: map<string, seq<Event>>, chains: Chains, crons: Crons, now: Time, rows: seq<Problem>) {
    var at := SourceOf(events, chains, crons, now);
    && (forall p :: p in rows && p.scope == Namespace ==> exists ns :: ns in events && NamespaceRow(at(ns), p))
    && (forall ns :: ns in events ==> CoversAll(at(ns), rows))
  }

  /** The workloads with warnings in the namespaces seen. */
  ghost predicate KeysListed(at: string -> Source, seen: seq<string>, keys: seq<(string, ObjRef)>) {
    Distinct(keys) && forall ns, r :: (ns, r) in keys <==> ns in seen && WarningsUnder(at(ns), r) != []
  }

  ghost function WorkloadRow(at: string -> Source): ((string, ObjRef), Problem) -> bool {
    (k: (string, ObjRef), p: Problem) => RowFor(at(k.0), k.1, p)
  }

  /** The rows are those of the workloads listed, by namespace and root: the ones with warnings in the namespaces
      seen. */
  ghost predicate RowsOfWorkloads(at: string -> Source, seen: seq<string>, keys: seq<(string, ObjRef)>,
                                  rows: seq<Problem>) {
    KeysListed(at, seen, keys) && Pairwise(WorkloadRow(at), keys, rows)
  }

  ghost function Tag(ns: string, roots: seq<ObjRef>): (keys: seq<(string, ObjRef)>)
    ensures |keys| == |roots| && forall k :: 0 <= k < |roots| ==> keys[k] == (ns, roots[k])
    ensures forall m, r :: (m, r) in keys <==> m == ns && r in roots
  {
    var keys := Map((r: ObjRef) => (ns, r), roots);
    assert forall r | r in roots :: (ns, r) in keys by {
      forall r | r in roots ensures (ns, r) in keys {
        var k :| 0 <= k < |roots| && roots[k] == r;
        assert keys[k] == (ns, r);
      }
    }
    keys
  }

  lemma TagApart(keys: seq<(string, ObjRef)>, ns: string, roots: seq<ObjRef>)
    requires Distinct(keys) && Distinct(roots) && forall r :: (ns, r) !in keys
    ensures Distinct(keys + Tag(ns, roots))
  {
    var more := Tag(ns, roots);
    forall k, j | 0 <= k < j < |keys + more| ensures (keys + more)[k] != (keys + more)[j] {
      if k < |keys| <= j {
        assert keys[k] in keys && more[j - |keys|] == (ns, roots[j - |keys|]);
      }
    }
  }

  lemma TagRows(at: string -> Source, ns: string, roots: seq<ObjRef>, ps: seq<Problem>)
    requires Pairwise(RootRow(at(ns)), roots, ps)
    ensures Pairwise(WorkloadRow(at), Tag(ns, roots), ps)
  {
    forall k | 0 <= k < |roots| ensures WorkloadRow(at)(Tag(ns, roots)[k], ps[k]) {
      assert RootRow(at(ns))(roots[k], ps[k]);
    }
  }

  lemma KeysListedMore(at: string -> Source, seen: seq<string>, keys: seq<(string, ObjRef)>, ns: string,
                       roots: seq<ObjRef>)
    requires KeysListed(at, seen, keys) && ns !in seen && Distinct(roots)
    requires forall r :: r in roots <==> WarningsUnder(at(ns), r) != []
    ensures KeysListed(at, seen + [ns], keys + Tag(ns, roots))
  {
    TagApart(keys, ns, roots);
    forall m, r ensures (m, r) in keys + Tag(ns, roots) <==> m in seen + [ns] && WarningsUnder(at(m), r) != [] {
      assert (m, r) in keys + Tag(ns, roots) <==> (m, r) in keys || (m, r) in Tag(ns, roots);
    }
  }

  lemma RowsOfWorkloadsMore(at: string -> Source, seen: seq<string>, keys: seq<(string, ObjRef)>, rows: seq<Problem>,
                       ns: string,
                       roots: seq<ObjRef>, ps: seq<Problem>)
    requires RowsOfWorkloads(at, seen, keys, rows) && ns !in seen && RowsOfRoots(at(ns), roots, ps)
    ensures RowsOfWorkloads(at, seen + [ns], keys + Tag(ns, roots), rows + ps)
  {
    TagRows(at, ns, roots, ps);
    PairwiseConcat(WorkloadRow(at), keys, rows, Tag(ns, roots), ps);
    KeysListedMore(at, seen, keys, ns, roots);
  }

  /** A namespace's rows are in that namespace. */
  lemma RootRowsIn(src: Source, roots: seq<ObjRef>, ps: seq<Problem>)
    requires RowsOfRoots(src, roots, ps)
    ensures RowsIn(ps, [src.ns])
  {
    forall p | p in ps ensures p.scope == Namespace && Home(p) == src.ns {
      var k :| 0 <= k < |ps| && ps[k] == p;
      assert RootRow(src)(roots[k], p);
    }
  }

  lemma RowsOfWorkloadsOf(events: map<string, seq<Event>>, chains: Chains, crons: Crons, now: Time, seen: seq<string>,
                     keys: seq<(string, ObjRef)>, rows: seq<Problem>, clusterRows: seq<Problem>)
    requires RowsOfWorkloads(SourceOf(events, chains, crons, now), seen, keys, rows) && forall ns :: ns in seen <==>
        ns in events
    requires forall p :: p in clusterRows ==> p.scope == Cluster
    ensures RowsOf(events, chains, crons, now, rows + clusterRows)
  {
    var at := SourceOf(events, chains, crons, now);
    forall p | p in rows + clusterRows && p.scope == Namespace
      ensures exists ns :: ns in events && NamespaceRow(at(ns), p)
    {
      var k :| 0 <= k < |rows| && rows[k] == p;
      assert (keys[k].0, keys[k].1) in keys && WorkloadRow(at)(keys[k], p);
      assert NamespaceRow(at(keys[k].0), p);
    }
    forall ns, r | ns in events ensures Covers(at(ns), rows + clusterRows, r) {
      if WarningsUnder(at(ns), r) != [] {
        var k :| 0 <= k < |keys| && keys[k] == (ns, r);
        assert rows[k] in rows + clusterRows && WorkloadRow(at)(keys[k], rows[k]);
      }
    }
  }

  /** How the rows before grouping are made up: the namespaces' rows by workload, then the cluster's by kind and
      reason. */
  datatype Parts = Parts(
    keys: seq<(string, ObjRef)>, own: seq<Problem>, warnings: seq<Event>, causes: seq<(string, string)>,
    cluster: seq<Problem>)

  ghost function ClusterWarnings(events: map<string, seq<Event>>): string -> seq<Event> {
    (ns: string) => if ns in events then Filter(events[ns], ClusterWarning) else []
  }

  /** One row for each workload with warnings, a namespace's together, and then one for each kind and reason of a
      cluster-scoped warning. */
  ghost predicate MadeOf(events: map<string, seq<Event>>, chains: Chains, crons: Crons, now: Time, rows: seq<Problem>,
                         parts: Parts) {
    && rows == parts.own + parts.cluster
    && RowsOfWorkloads(SourceOf(events, chains, crons, now), Listing(events.Keys), parts.keys, parts.own)
    && Permutes(parts.warnings, FlatBy(Listing(events.Keys), ClusterWarnings(events)))
    && RowsOfCauses(parts.warnings, now, parts.causes, parts.cluster)
    && Blocked(rows)
  }

  /** The rows before grouping: every warning of every namespace is counted in exactly one of them. */
  method AllRows(events: map<string, seq<Event>>, chains: Chains, crons: Crons, now: Time)
    returns (rows: seq<Problem>, ghost parts: Parts)
    requires ChainsOk(chains)
    ensures RowsOk(rows, now) && RowsOf(events, chains, crons, now, rows)
    ensures MadeOf(events, chains, crons, now, rows, parts)
    ensures SumBy(rows, Occurrences) == MapTotal(Totals(events))
  {
    var own, warnings, seen, keys := AllNamespaceRows(events, chains, crons, now);
    var cluster, causes := ClusterProblems(warnings, now);
    FlatSums(own, cluster, now);
    RowsOfWorkloadsOf(events, chains, crons, now, seen, keys, own, cluster);
    ClusterAppended(own, seen, cluster);
    rows, parts := own + cluster, Parts(keys, own, warnings, causes, cluster);
    PartsMake(events, chains, crons, now, seen, parts);
  }

  lemma PartsMake(events: map<string, seq<Event>>, chains: Chains, crons: Crons, now: Time, seen: seq<string>,
                  parts: Parts)
    requires Distinct(seen) && forall ns :: ns in seen <==> ns in events
    requires RowsOfWorkloads(SourceOf(events, chains, crons, now), seen, parts.keys, parts.own)
    requires parts.warnings == FlatBy(seen, ClusterWarnings(events))
    requires RowsOfCauses(parts.warnings, now, parts.causes, parts.cluster) && Blocked(parts.own + parts.cluster)
    ensures MadeOf(events, chains, crons, now, parts.own + parts.cluster, parts)
  {
    DistinctPermutes(seen, Listing(events.Keys));
    FlatByPermutes(seen, Listing(events.Keys), ClusterWarnings(events));
  }

  method AllNamespaceRows(events: map<string, seq<Event>>, chains: Chains, crons: Crons, now: Time)
    returns (rows: seq<Problem>, warnings: seq<Event>, ghost seen: seq<string>, ghost keys: seq<(string, ObjRef)>)
    requires ChainsOk(chains)
    ensures RowsOk(rows, now)
    ensures Distinct(seen) && forall ns :: ns in seen <==> ns in events
    ensures RowsOfWorkloads(SourceOf(events, chains, crons, now), seen, keys, rows)
    ensures Blocked(rows) && RowsIn(rows, seen)
    ensures warnings == FlatBy(seen, ClusterWarnings(events))
    ensures SumBy(rows, Occurrences) + SumBy(warnings, EventCount) == MapTotal(Totals(events))
  {
    var order := IterationOrder(events.Keys);
    ghost var totals := Totals(events);
    var at := SourceOf(events, chains, crons, now);
    rows, warnings, seen, keys := [], [], order, [];
    for i := 0 to |order|
      invariant RowsOk(rows, now) && RowsOfWorkloads(at, order[..i], keys, rows)
      invariant Blocked(rows) && RowsIn(rows, order[..i])
      invariant warnings == FlatBy(order[..i], ClusterWarnings(events))
      invariant SumBy(rows, Occurrences) + SumBy(warnings, EventCount) == SumBy(order[..i], At(totals))
    {
      var ns := order[i];
      assert ns in order && ns !in order[..i];
      var ps, cluster, roots := NamespaceProblems(at(ns));
      RowsOfWorkloadsMore(at, order[..i], keys, rows, ns, roots, ps);
      RootRowsIn(at(ns), roots, ps);
      BlockAppended(rows, order[..i], ns, ps);
      PrefixStep(order, i);
      WarningTotalSplits(events[ns]);
      SumByStep(order, At(totals), i);
      FlatSums(rows, ps, now);
      SumByConcat(warnings, cluster, EventCount);
      rows, warnings, keys := rows + ps, warnings + cluster, keys + Tag(ns, roots);
    }
    assert order[..|order|] == order;
    MapTotalListing(totals, order);
  }

  ghost function LeafCount(x: PatternItem): Problem -> int {
    p => multiset(Leaves(p))[x]
  }

  lemma {:induction false} AllLeavesCount(xs: seq<Problem>, x: PatternItem)
    ensures multiset(AllLeaves(xs))[x] == SumBy(xs, LeafCount(x))
  {
    if xs != [] {
      AllLeavesCount(xs[..|xs| - 1], x);
    }
  }

  lemma AllLeavesPermute(xs: seq<Problem>, ys: seq<Problem>)
    requires Permutes(xs, ys)
    ensures Permutes(AllLeaves(xs), AllLeaves(ys))
  {
    forall x ensures multiset(AllLeaves(xs))[x] == multiset(AllLeaves(ys))[x] {
      AllLeavesCount(xs, x);
      AllLeavesCount(ys, x);
      SumByPermutation(xs, ys, LeafCount(x));
    }
  }

  /** A row of the home page: its reasons account for its occurrences, and its tier is that of its age. */
  ghost predicate PageRowOk(p: Problem, now: Time) {
    Balanced(p) && p.tier == TierAt(now, p.firstSeen)
  }

  lemma GroupedRowOk(ps: seq<Problem>, now: Time, groups: seq<seq<nat>>, rest: seq<nat>, out: seq<Problem>, k: nat)
    requires GroupedBy(ps, now, groups, rest, out) && RowsOk(ps, now) && k < |out|
    ensures PageRowOk(out[k], now)
  {
    GroupRows(ps, now, groups, rest, out);
    if k < |groups| {
      MadeGroup(ps, now, groups, out[..|groups|], k);
      FirstIsMerged(ps, groups, rest, k);
      PatternRowOk(ps, now, groups[k], out[k]);
    } else {
      assert out[k] == ps[rest[k - |groups|]];
      assert out[k] in ps;
    }
  }

  lemma PatternRowOk(ps: seq<Problem>, now: Time, c: seq<nat>, p: Problem)
    requires IsGroup(ps, now, c, p) && RowsOk(ps, now) && Merged(ps, c[0])
    ensures PageRowOk(p, now)
  {
    GroupBalanced(ps, now, c, p);
    RowsAged(ps, now);
    PatternsAreHomogeneous(ps, now, c, p);
  }

  lemma RowsAged(ps: seq<Problem>, now: Time)
    requires RowsOk(ps, now)
    ensures Aged(ps, now) && forall q :: q in ps && q.scope == Namespace ==> Complete(q)
  {
    forall i | 0 <= i < |ps| ensures ps[i].tier == TierAt(now, ps[i].firstSeen) {
      assert ps[i] in ps;
    }
  }

  lemma GroupBalanced(ps: seq<Problem>, now: Time, c: seq<nat>, p: Problem)
    requires IsGroup(ps, now, c, p) && RowsOk(ps, now)
    ensures Balanced(p)
  {
    var s := MemberOrderOf(Pick(ps, c), now, p);
    ComponentComplete(ps, c);
    PermutesMembers(s, Pick(ps, c));
    PatternBalanced(s, now);
  }

  /** What grouping keeps, however the rows were grouped. */
  lemma GroupingConserves(ps: seq<Problem>, now: Time, out: seq<Problem>)
    requires Grouping(ps, now, out) && RowsOk(ps, now)
    ensures SumBy(out, Occurrences) == SumBy(ps, Occurrences)
    ensures Permutes(AllLeaves(out), Map(Item, ps))
    ensures forall p :: p in out ==> PageRowOk(p, now)
  {
    var groups, rest :| GroupedBy(ps, now, groups, rest, out);
    OccurrencesSurvive(ps, now, groups, rest, out);
    RowsSurvive(ps, now, groups, rest, out);
    forall p | p in out ensures PageRowOk(p, now) {
      var k :| 0 <= k < |out| && out[k] == p;
      GroupedRowOk(ps, now, groups, rest, out, k);
    }
  }

  /** What may stand above what: new rows first and chronic ones last; in a tier cascades, then active rows, then
      those seen last, and then by key. */
  ghost predicate MayPrecede(a: Problem, b: Problem) {
    && (b.tier.New? ==> a.tier.New?) && (a.tier.Chronic? ==> b.tier.Chronic?)
    && (a.tier == b.tier ==>
          && (b.cascade ==> a.cascade)
          && (a.cascade == b.cascade ==>
                && (a.idle ==> b.idle)
                && (a.idle == b.idle ==>
                      && a.lastSeen >= b.lastSeen
                      && (a.lastSeen == b.lastSeen ==> a.key == b.key || StringLess(a.key, b.key)))))
  }

  ghost predicate Ranked(page: seq<Problem>) {
    forall i, j :: 0 <= i < j < |page| ==> MayPrecede(page[i], page[j])
  }

  lemma PrecedesExactly(a: Problem, b: Problem)
    ensures !RowBefore(b, a) <==> MayPrecede(a, b)
  {
    StringLessTrichotomy(a.key, b.key);
    if StringLess(a.key, b.key) {
      StringLessAsymmetric(a.key, b.key);
    }
  }

  lemma SortedIsRanked(page: seq<Problem>)
    ensures Sorted(page, RowBefore) <==> Ranked(page)
  {
    forall i, j | 0 <= i < j < |page| ensures !RowBefore(page[j], page[i]) <==> MayPrecede(page[i], page[j]) {
      PrecedesExactly(page[i], page[j]);
    }
  }

  /** A page that these events can lead to, in some order of the maps. */
  ghost predicate IsHomePage(events: map<string, seq<Event>>, chains: Chains, crons: Crons, now: Time,
                             page: seq<Problem>) {
    exists rows, parts :: MadeOf(events, chains, crons, now, rows, parts) && IsPage(rows, now, page)
  }

  /** The home page's rows. Every occurrence of every warning is in exactly one of them, every row before
      grouping is one of them or one item of one pattern, and they are ranked. */
  method BuildProblems(events: map<string, seq<Event>>, chains: Chains, crons: Crons, now: Time)
    returns (page: seq<Problem>, ghost rows: seq<Problem>, ghost out: seq<Problem>, ghost parts: Parts)
    requires ChainsOk(chains)
    ensures RowsOk(rows, now) && RowsOf(events, chains, crons, now, rows)
    ensures MadeOf(events, chains, crons, now, rows, parts) && IsHomePage(events, chains, crons, now, page)
    ensures Grouping(rows, now, out) && Permutes(page, out) && IsPage(rows, now, page)
    ensures SumBy(page, Occurrences) == MapTotal(Totals(events))
    ensures Permutes(AllLeaves(page), Map(Item, rows))
    ensures forall p :: p in page ==> PageRowOk(p, now)
    ensures Sorted(page, RowBefore) && Ranked(page)
  {
    var problems, made := AllRows(events, chains, crons, now);
    rows, parts := problems, made;
    var grouped := GroupPatterns(problems, now);
    out := grouped;
    GroupingConserves(problems, now, out);
    page := SortProblems(grouped);
    PermutesMembers(page, out);
    SumByPermutation(page, out, Occurrences);
    AllLeavesPermute(page, out);
    SortedIsRanked(page);
  }
}
