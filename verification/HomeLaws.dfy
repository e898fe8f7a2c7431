/** The home page, told by the events and the rows' own fields (problems.go): every row is on it, by itself or as an
    item of a pattern, and every occurrence of a warning. */
module HomeLaws {
  import opened Clock
  import opened Sequences
  import opened Events
  import opened Merging
  import opened Problems
  import opened Groups
  import opened NamespaceRows
  import opened Overview
  import opened Patterns
  import opened PatternLaws
  import opened RowLaws

  // ---- Every row is shown --------------------------------------------------

  /** The item tells what the row does, with its main reason. */
  ghost predicate ItemShows(item: PatternItem, p: Problem) {
    && Complete(p) && item.namespace == p.namespaces[0] && item.kind == p.kind && item.name == p.title
    && item.reason == p.reasons[0].reason && item.occurrences == p.occurrences && item.idle == p.idle
    && item.focus == p.focus
  }

  ghost predicate Lists(q: Problem, p: Problem) {
    exists k: nat :: k < |q.items| && ItemShows(q.items[k], p)
  }

  /** The row is on the page, or an item of a pattern there. */
  ghost predicate Shown(page: seq<Problem>, p: Problem) {
    p in page || exists q :: q in page && q.scope == Pattern && Lists(q, p)
  }

  /** How many rows a page stands for. */
  ghost function Entries(page: seq<Problem>): nat {
    if page == [] then 0
    else var q := page[|page| - 1]; Entries(page[..|page| - 1]) + if q.scope == Pattern then |q.items| else 1
  }

  lemma {:induction false} EntriesAre(page: seq<Problem>)
    ensures Entries(page) == |AllLeaves(page)|
  {
    if page != [] {
      EntriesAre(page[..|page| - 1]);
    }
  }

  lemma MemberShown(members: seq<Problem>, now: Time, q: Problem, p: Problem)
    requires IsPatternOf(members, now, q) && p in members && Complete(p)
    ensures q.scope == Pattern && Lists(q, p)
  {
    var s := MemberOrderOf(members, now, q);
    PermutesMembers(s, members);
    var k: nat :| k < |s| && s[k] == p;
    assert ItemShows(q.items[k], p);
  }

  lemma GroupMemberShown(ps: seq<Problem>, now: Time, c: seq<nat>, q: Problem, i: nat)
    requires IsGroup(ps, now, c, q) && i in c && i < |ps| && Complete(ps[i])
    ensures q.scope == Pattern && Lists(q, ps[i])
  {
    var x :| 0 <= x < |c| && c[x] == i;
    assert Pick(ps, c)[x] in Pick(ps, c);
    MemberShown(Pick(ps, c), now, q, ps[i]);
  }

  /** Grouping keeps every row, as it is or as an item; */
  lemma RowShown(ps: seq<Problem>, now: Time, out: seq<Problem>, i: nat)
    requires Grouping(ps, now, out) && RowsOk(ps, now) && i < |ps|
    ensures Shown(out, ps[i])
  {
    var groups, rest :| GroupedBy(ps, now, groups, rest, out);
    GroupRows(ps, now, groups, rest, out);
    assert Placed(ps, groups, rest, i) && ps[i] in ps;
    if i in rest {
      var x :| 0 <= x < |rest| && rest[x] == i;
      assert out[|groups| + x] == ps[i];
    } else {
      var k :| 0 <= k < |groups| && i in groups[k];
      MadeGroup(ps, now, groups, out[..|groups|], k);
      ComponentRow(ps, groups[k], i);
      GroupMemberShown(ps, now, groups[k], out[k], i);
      assert out[k] in out;
    }
  }

  /** so the home page shows every row, and stands for no more rows than there are. */
  lemma PageShows(rows: seq<Problem>, now: Time, out: seq<Problem>, page: seq<Problem>)
    requires RowsOk(rows, now) && Grouping(rows, now, out) && Permutes(page, out)
    ensures Entries(page) == |rows| && forall p :: p in rows ==> Shown(page, p)
  {
    EntriesAre(page);
    GroupingConserves(rows, now, out);
    AllLeavesPermute(page, out);
    PermutesMembers(AllLeaves(page), Map(Item, rows));
    PermutesMembers(page, out);
    forall p | p in rows ensures Shown(page, p) {
      var i :| 0 <= i < |rows| && rows[i] == p;
      RowShown(rows, now, out, i);
    }
  }

  // ---- Every occurrence is counted -----------------------------------------

  /** The occurrences that the named warnings report. */
  ghost function Reported(es: seq<Event>): int {
    if es == [] then 0
    else var e := es[|es| - 1];
         Reported(es[..|es| - 1]) + if e.eventType == "Warning" && e.kind != "" && e.objectName != "" then e.count
             else 0
  }

  lemma {:induction false} ReportedAre(es: seq<Event>)
    ensures WarningTotal(es) == Reported(es)
  {
    if es != [] {
      ReportedAre(es[..|es| - 1]);
      FilterSum(es, Counted, EventCount);
    }
  }

  /** The warnings of a cluster row are those of its kind and reason about objects of no namespace. */
  lemma CauseExactly(es: seq<Event>, k: (string, string), e: Event)
    ensures multiset(Bucket(Filter(es, ClusterWarning), KindReason, k))[e] ==
            if e.eventType == "Warning" && e.kind == k.0 && e.kind != "" && e.objectName != ""
                && e.objectNamespace == "" && e.reason == k.1
            then multiset(es)[e] else 0
  {
    FilterCount(es, ClusterWarning, e);
    BucketCount(Filter(es, ClusterWarning), KindReason, k, e);
  }

  /** And it tells them, newest first. */
  lemma ClusterTells(p: Problem, k: (string, string), warnings: seq<Event>, now: Time)
    requires IsClusterRow(p, k, warnings, now)
    ensures p.scope == Cluster && p.kind == k.0 && p.namespaces == [] && p.key == "cluster:" + k.0 + "/" + k.1
    ensures exists es: seq<Event> ::
              && es != [] && Permutes(es, warnings) && InFeedOrder(es) && Tells(p, es, now)
              && StartOf(es, p.firstSeen) && p.focus == k.0 + "/" + es[0].objectName
  {
    var es: seq<Event> :| es != [] && Permutes(es, warnings) && Sorted(es, NewestFirst) && p == ClusterRow(k, es, now);
    SortedIsFeedOrder(es);
    FilledTells(ClusterBlank(k, es), es, now);
  }
}
