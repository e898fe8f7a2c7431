/** From the events to the home page (problems.go): whatever order the maps are visited in, the rows are the same
    rows, and the pages differ only where the merge depends on the order. */
module OverviewLaws {
  import opened Clock
  import opened Sequences
  import opened Tables
  import opened Events
  import opened Merging
  import opened Problems
  import opened Patterns
  import opened Groups
  import opened NamespaceRows
  import opened Overview
  import opened OrderLaws
  import opened PageLaws
  import opened BlockLaws

  lemma SameWorkloadRows(at: string -> Source, seen: seq<string>, keys: seq<(string, ObjRef)>, rows: seq<Problem>,
                         keys': seq<(string, ObjRef)>, rows': seq<Problem>)
    requires RowsOfWorkloads(at, seen, keys, rows) && RowsOfWorkloads(at, seen, keys', rows')
    ensures Permutes(rows, rows')
  {
    SameKeys(at, seen, keys, keys');
    forall i, k | 0 <= i < |keys| && 0 <= k < |keys'| && keys[i] == keys'[k] ensures rows[i] == rows'[k] {
      assert WorkloadRow(at)(keys[i], rows[i]) && WorkloadRow(at)(keys'[k], rows'[k]);
      RowUnique(at(keys[i].0), keys[i].1, rows[i], rows'[k]);
    }
    PairsPermute(keys, rows, keys', rows');
  }

  lemma SameKeys(at: string -> Source, seen: seq<string>, keys: seq<(string, ObjRef)>, keys': seq<(string, ObjRef)>)
    requires KeysListed(at, seen, keys) && KeysListed(at, seen, keys')
    ensures Permutes(keys, keys')
  {
    forall k: (string, ObjRef) ensures k in keys <==> k in keys' {
      assert k == (k.0, k.1);
    }
    DistinctPermutes(keys, keys');
  }

  lemma SameBucket(xs: seq<Event>, ys: seq<Event>, k: (string, string))
    requires Permutes(xs, ys)
    ensures Permutes(Bucket(xs, KindReason, k), Bucket(ys, KindReason, k))
  {
    forall e: Event ensures multiset(Bucket(xs, KindReason, k))[e] == multiset(Bucket(ys, KindReason, k))[e] {
      BucketCount(xs, KindReason, k, e);
      BucketCount(ys, KindReason, k, e);
    }
  }

  /** Warnings that time, namespace and name tell apart leave one row. */
  lemma ClusterRowUnique(p: Problem, q: Problem, k: (string, string), xs: seq<Event>, ys: seq<Event>, now: Time)
    requires IsClusterRow(p, k, xs, now) && IsClusterRow(q, k, ys, now)
    requires Permutes(xs, ys) && Separates(NewestFirst, xs)
    ensures p == q
  {
    var es: seq<Event> :| es != [] && Permutes(es, xs) && Sorted(es, NewestFirst) && p == ClusterRow(k, es, now);
    var fs: seq<Event> :| fs != [] && Permutes(fs, ys) && Sorted(fs, NewestFirst) && q == ClusterRow(k, fs, now);
    SeparatesWithin(es, xs);
    SortedUnique(es, fs, NewestFirst);
  }

  lemma SeparatesWithin(xs: seq<Event>, ys: seq<Event>)
    requires Separates(NewestFirst, ys)
    requires Permutes(xs, ys) || forall x :: x in xs ==> x in ys
    ensures Separates(NewestFirst, xs)
  {
    if Permutes(xs, ys) {
      PermutesMembers(xs, ys);
    }
    forall i, j | 0 <= i < |xs| && 0 <= j < |xs| && !NewestFirst(xs[i], xs[j]) && !NewestFirst(xs[j], xs[i])
      ensures xs[i] == xs[j]
    {
      assert xs[i] in ys && xs[j] in ys;
      var k :| 0 <= k < |ys| && ys[k] == xs[i];
      var l :| 0 <= l < |ys| && ys[l] == xs[j];
    }
  }

  lemma SameClusterRows(xs: seq<Event>, ys: seq<Event>, now: Time, causes: seq<(string, string)>, ps: seq<Problem>,
                        causes': seq<(string, string)>, ps': seq<Problem>)
    requires RowsOfCauses(xs, now, causes, ps) && RowsOfCauses(ys, now, causes', ps')
    requires Permutes(xs, ys) && Separates(NewestFirst, xs)
    ensures Permutes(ps, ps')
  {
    SameCauses(xs, ys, causes, causes');
    forall i, k | 0 <= i < |causes| && 0 <= k < |causes'| && causes[i] == causes'[k] ensures ps[i] == ps'[k] {
      assert CauseRow(xs, now)(causes[i], ps[i]) && CauseRow(ys, now)(causes'[k], ps'[k]);
      SameCauseRow(xs, ys, now, causes[i], ps[i], ps'[k]);
    }
    PairsPermute(causes, ps, causes', ps');
  }

  lemma SameCauses(xs: seq<Event>, ys: seq<Event>, causes: seq<(string, string)>, causes': seq<(string, string)>)
    requires Permutes(xs, ys) && Distinct(causes) && Distinct(causes')
    requires forall k :: k in causes <==> Bucket(xs, KindReason, k) != []
    requires forall k :: k in causes' <==> Bucket(ys, KindReason, k) != []
    ensures Permutes(causes, causes')
  {
    forall k ensures k in causes <==> k in causes' {
      SameBucket(xs, ys, k);
      PermutesMembers(Bucket(xs, KindReason, k), Bucket(ys, KindReason, k));
    }
    DistinctPermutes(causes, causes');
  }

  lemma SameCauseRow(xs: seq<Event>, ys: seq<Event>, now: Time, k: (string, string), p: Problem, q: Problem)
    requires CauseRow(xs, now)(k, p) && CauseRow(ys, now)(k, q)
    requires Permutes(xs, ys) && Separates(NewestFirst, xs)
    ensures p == q
  {
    SameBucket(xs, ys, k);
    forall e | e in Bucket(xs, KindReason, k) ensures e in xs {
      BucketMembers(xs, KindReason, k, e);
    }
    SeparatesWithin(Bucket(xs, KindReason, k), xs);
    ClusterRowUnique(p, q, k, Bucket(xs, KindReason, k), Bucket(ys, KindReason, k), now);
  }

  /** Time, namespace and name tell the cluster-scoped warnings apart. */
  ghost predicate ClusterWarningsApart(events: map<string, seq<Event>>) {
    Separates(NewestFirst, FlatBy(Listing(events.Keys), ClusterWarnings(events)))
  }

  /** The same events make the same rows, in whatever order. */
  lemma RowsOfEventsUnique(events: map<string, seq<Event>>, chains: Chains, crons: Crons, now: Time,
                           rows: seq<Problem>, parts: Parts, rows': seq<Problem>, parts': Parts)
    requires MadeOf(events, chains, crons, now, rows, parts) && MadeOf(events, chains, crons, now, rows', parts')
    requires ClusterWarningsApart(events)
    ensures Permutes(rows, rows')
  {
    SameWorkloadRows(SourceOf(events, chains, crons, now), Listing(events.Keys), parts.keys, parts.own, parts'.keys,
        parts'.own);
    SeparatesWithin(parts.warnings, FlatBy(Listing(events.Keys), ClusterWarnings(events)));
    SameClusterRows(parts.warnings, parts'.warnings, now, parts.causes, parts.cluster, parts'.causes, parts'.cluster);
  }

  /** Two pages of the same events are equal exactly when their rows were put together in the same way; and they
      are whenever the merge does not depend on the order of the rows. */
  lemma OnePageOfEvents(events: map<string, seq<Event>>, chains: Chains, crons: Crons, now: Time,
                        rows: seq<Problem>, parts: Parts, page: seq<Problem>,
                        rows': seq<Problem>, parts': Parts, page': seq<Problem>)
    requires MadeOf(events, chains, crons, now, rows, parts) && MadeOf(events, chains, crons, now, rows', parts')
    requires ClusterWarningsApart(events) && KeysOk(rows)
    requires IsPage(rows, now, page) && IsPage(rows', now, page')
    ensures Permutes(rows, rows') && (page == page' <==> SameGroups(rows, rows'))
    ensures BlockFree(rows) || OrderFree(rows) ==> page == page'
  {
    RowsOfEventsUnique(events, chains, crons, now, rows, parts, rows', parts');
    SamePageExactly(rows, rows', now, page, page');
    if OrderFree(rows) {
      OrderFreeIsBlockFree(rows);
    }
    if BlockFree(rows) {
      BlockFreeSameGroups(rows, rows');
    }
  }

  // ---- Every such order can come about -------------------------------------

  function OfNamespaceRow(): Problem -> bool {
    (p: Problem) => p.scope == Namespace
  }

  lemma OwnAreRows(at: string -> Source, seen: seq<string>, keys: seq<(string, ObjRef)>, own: seq<Problem>)
    requires RowsOfWorkloads(at, seen, keys, own)
    ensures forall p :: p in own ==> p.scope == Namespace
  {
    forall p | p in own ensures p.scope == Namespace {
      var k :| 0 <= k < |own| && own[k] == p;
      assert WorkloadRow(at)(keys[k], p) && RowFor(at(keys[k].0), keys[k].1, p);
    }
  }

  /** Where a blocked listing's namespace rows end. */
  lemma {:induction false} RowsEnd(ps: seq<Problem>) returns (n: nat)
    requires Blocked(ps)
    ensures n <= |ps|
    ensures (forall p :: p in ps[..n] ==> p.scope == Namespace) && (forall p :: p in ps[n..] ==> p.scope != Namespace)
  {
    if ps == [] || IsRow(ps, |ps| - 1) {
      n := |ps|;
      if ps != [] {
        RowsBefore(ps, |ps| - 1);
        assert ps == ps[..|ps| - 1] + [ps[|ps| - 1]];
      }
    } else {
      var m := |ps| - 1;
      BlockedPrefix(ps, m);
      n := RowsEnd(ps[..m]);
      assert ps[..m][..n] == ps[..n] && ps[n..] == ps[..m][n..] + [ps[m]];
    }
  }

  lemma SplitPermutes(xs: seq<Problem>, ys: seq<Problem>, xs': seq<Problem>, ys': seq<Problem>)
    requires Permutes(xs + ys, xs' + ys')
    requires forall p :: p in xs || p in xs' ==> p.scope == Namespace
    requires forall p :: p in ys || p in ys' ==> p.scope != Namespace
    ensures Permutes(xs', xs) && Permutes(ys', ys)
  {
    FilterFront(xs, ys, OfNamespaceRow());
    FilterFront(xs', ys', OfNamespaceRow());
    FilterPermutes(xs + ys, xs' + ys', OfNamespaceRow());
    assert multiset(xs + ys) == multiset(xs) + multiset(ys) && multiset(xs' + ys') == multiset(xs') + multiset(ys');
    assert multiset(ys) == multiset(xs + ys) - multiset(xs) && multiset(ys') == multiset(xs' + ys') - multiset(xs');
  }

  lemma RowsRelisted(at: string -> Source, seen: seq<string>, keys: seq<(string, ObjRef)>, own: seq<Problem>,
                     own': seq<Problem>) returns (keys': seq<(string, ObjRef)>)
    requires RowsOfWorkloads(at, seen, keys, own) && Permutes(own', own)
    ensures RowsOfWorkloads(at, seen, keys', own')
  {
    keys' := PairsRelist(WorkloadRow(at), keys, own, own');
    PermutesDistinct(keys', keys);
    PermutesMembers(keys', keys);
  }

  lemma CausesRelisted(warnings: seq<Event>, now: Time, causes: seq<(string, string)>, ps: seq<Problem>,
                       ps': seq<Problem>) returns (causes': seq<(string, string)>)
    requires RowsOfCauses(warnings, now, causes, ps) && Permutes(ps', ps)
    ensures RowsOfCauses(warnings, now, causes', ps')
  {
    causes' := PairsRelist(CauseRow(warnings, now), causes, ps, ps');
    PermutesDistinct(causes', causes);
    PermutesMembers(causes', causes);
  }

  /** Any blocked listing of the rows is one that some order of the maps gives. */
  lemma EveryBlockedOrder(events: map<string, seq<Event>>, chains: Chains, crons: Crons, now: Time,
                          rows: seq<Problem>, parts: Parts, qs: seq<Problem>) returns (parts': Parts)
    requires MadeOf(events, chains, crons, now, rows, parts) && Permutes(rows, qs) && Blocked(qs)
    ensures MadeOf(events, chains, crons, now, qs, parts')
  {
    var at, seen := SourceOf(events, chains, crons, now), Listing(events.Keys);
    OwnAreRows(at, seen, parts.keys, parts.own);
    ClusterTotals(parts.warnings, now, parts.causes, parts.cluster);
    var n := RowsEnd(qs);
    assert qs == qs[..n] + qs[n..];
    SplitPermutes(parts.own, parts.cluster, qs[..n], qs[n..]);
    var keys := RowsRelisted(at, seen, parts.keys, parts.own, qs[..n]);
    var causes := CausesRelisted(parts.warnings, now, parts.causes, parts.cluster, qs[n..]);
    parts' := Parts(keys, qs[..n], parts.warnings, causes, qs[n..]);
  }

  ghost predicate OnePageOf(events: map<string, seq<Event>>, chains: Chains, crons: Crons, now: Time) {
    forall page, page' ::
      IsHomePage(events, chains, crons, now, page) && IsHomePage(events, chains, crons, now, page') ==> page == page'
  }

  lemma HomePageIs(events: map<string, seq<Event>>, chains: Chains, crons: Crons, now: Time, rows: seq<Problem>,
                   parts: Parts, page: seq<Problem>, page': seq<Problem>)
    requires MadeOf(events, chains, crons, now, rows, parts) && ClusterWarningsApart(events) && KeysOk(rows)
    requires BlockFree(rows) && IsPage(rows, now, page) && IsHomePage(events, chains, crons, now, page')
    ensures page' == page
  {
    var rows', parts' :| MadeOf(events, chains, crons, now, rows', parts') && IsPage(rows', now, page');
    OnePageOfEvents(events, chains, crons, now, rows, parts, page, rows', parts', page');
  }

  /** The same events lead to one page, whatever order Go visits its maps in, exactly when in every order of the
      namespaces every two rows that the pair rule links one way round are together. */
  lemma OnePageOfEventsExactly(events: map<string, seq<Event>>, chains: Chains, crons: Crons, now: Time,
                               rows: seq<Problem>, parts: Parts)
    requires MadeOf(events, chains, crons, now, rows, parts) && ClusterWarningsApart(events) && KeysOk(rows)
    ensures OnePageOf(events, chains, crons, now) <==> BlockFree(rows)
  {
    if BlockFree(rows) {
      var page := PageExists(rows, now);
      forall p | IsHomePage(events, chains, crons, now, p) ensures p == page {
        HomePageIs(events, chains, crons, now, rows, parts, page, p);
      }
    }
    if OnePageOf(events, chains, crons, now) {
      forall qs, page, page' | Permutes(rows, qs) && Blocked(qs) && IsPage(rows, now, page) && IsPage(qs, now, page')
        ensures page == page'
      {
        var parts' := EveryBlockedOrder(events, chains, crons, now, rows, parts, qs);
        assert IsHomePage(events, chains, crons, now, page) && IsHomePage(events, chains, crons, now, page');
      }
      OneBlockedPageExactly(rows, now);
    }
  }
}
