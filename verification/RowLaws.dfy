/** What a row says of its warnings, told by the warnings themselves (problems.go): its reasons and their totals, its
    times, its age and the warnings it is made of. */
module RowLaws {
  import opened Clock
  import opened Sequences
  import opened Strings
  import opened Tables
  import opened Events
  import opened Problems

  // ---- Reasons -------------------------------------------------------------

  /** How often a reason occurred. */
  ghost function TotalOf(ws: seq<Event>, r: string): int {
    if ws == [] then 0
    else TotalOf(ws[..|ws| - 1], r) + if ws[|ws| - 1].reason == r then ws[|ws| - 1].count else 0
  }

  ghost predicate Given(ws: seq<Event>, r: string) {
    exists w :: w in ws && w.reason == r
  }

  lemma {:induction false} TallyIs(ws: seq<Event>, r: string)
    ensures r in Tally(ws) <==> Given(ws, r)
    ensures At(Tally(ws))(r) == TotalOf(ws, r)
  {
    if ws != [] {
      var front, e := ws[..|ws| - 1], ws[|ws| - 1];
      assert ws == front + [e];
      TallyIs(front, r);
      assert e in ws;
    }
  }

  /** The entry `a` may stand above the entry `b`: more often, or as often and of the lesser name. */
  ghost predicate Above(a: ReasonCount, b: ReasonCount) {
    a.count > b.count || (a.count == b.count && StringLess(a.reason, b.reason))
  }

  /** A table with one entry for each key, the largest on top. */
  ghost predicate TableOf(counts: map<string, int>, table: seq<ReasonCount>) {
    && (forall k :: 0 <= k < |table| ==> table[k].reason in counts && table[k].count == counts[table[k].reason])
    && (forall r :: r in counts ==> exists k :: 0 <= k < |table| && table[k].reason == r)
    && (forall j, k :: 0 <= j < k < |table| ==> table[j].reason != table[k].reason && Above(table[j], table[k]))
  }

  lemma RowsDistinct(counts: map<string, int>, rs: seq<string>)
    requires Distinct(rs)
    ensures Distinct(Rows(counts, rs))
  {
  }

  lemma TableRows(counts: map<string, int>, table: seq<ReasonCount>)
    requires table == ReasonTable(counts)
    ensures Permutes(table, Rows(counts, Listing(counts.Keys))) && Distinct(table) && Sorted(table, MoreFrequent)
  {
    var rows := Rows(counts, Listing(counts.Keys));
    MoreFrequentIsWeakOrder();
    StableSortPermutes(rows, MoreFrequent);
    StableSortSorted(rows, MoreFrequent);
    RowsDistinct(counts, Listing(counts.Keys));
    PermutesDistinct(table, rows);
  }

  lemma TableEntry(counts: map<string, int>, e: ReasonCount)
    ensures e in ReasonTable(counts) <==> e.reason in counts && e.count == counts[e.reason]
  {
    var ks := Listing(counts.Keys);
    var rows := Rows(counts, ks);
    TableRows(counts, ReasonTable(counts));
    PermutesMembers(ReasonTable(counts), rows);
    if e in rows {
      var i :| 0 <= i < |rows| && rows[i] == e;
      assert ks[i] in ks;
    }
    if e.reason in counts && e.count == counts[e.reason] {
      assert e.reason in ks;
      var i :| 0 <= i < |ks| && ks[i] == e.reason;
      assert rows[i] in rows;
    }
  }

  lemma TableIs(counts: map<string, int>)
    ensures TableOf(counts, ReasonTable(counts))
  {
    var table := ReasonTable(counts);
    TableRows(counts, table);
    forall k | 0 <= k < |table| ensures table[k].reason in counts && table[k].count == counts[table[k].reason] {
      TableEntry(counts, table[k]);
    }
    forall r | r in counts ensures exists k :: 0 <= k < |table| && table[k].reason == r {
      TableEntry(counts, ReasonCount(r, counts[r]));
      var k :| 0 <= k < |table| && table[k] == ReasonCount(r, counts[r]);
    }
    forall j, k | 0 <= j < k < |table| ensures table[j].reason != table[k].reason && Above(table[j], table[k]) {
      TableEntry(counts, table[j]);
      TableEntry(counts, table[k]);
      InOrder(table, j, k);
    }
  }

  lemma InOrder(table: seq<ReasonCount>, j: nat, k: nat)
    requires j < k < |table| && Distinct(table) && Sorted(table, MoreFrequent)
    requires table[j].reason == table[k].reason ==> table[j].count == table[k].count
    ensures table[j].reason != table[k].reason && Above(table[j], table[k])
  {
    assert !MoreFrequent(table[k], table[j]) && table[j] != table[k];
    StringLessTrichotomy(table[j].reason, table[k].reason);
  }

  /** The table of the warnings' reasons: each reason once, with how often it occurred. */
  ghost predicate ReasonsOf(ws: seq<Event>, table: seq<ReasonCount>) {
    && (forall k :: 0 <= k < |table| ==> Given(ws, table[k].reason) && table[k].count == TotalOf(ws, table[k].reason))
    && (forall r :: Given(ws, r) ==> exists k :: 0 <= k < |table| && table[k].reason == r)
    && (forall j, k :: 0 <= j < k < |table| ==> table[j].reason != table[k].reason && Above(table[j], table[k]))
  }

  lemma ReasonsAre(ws: seq<Event>)
    ensures ReasonsOf(ws, ReasonTable(Tally(ws)))
  {
    var table := ReasonTable(Tally(ws));
    TableIs(Tally(ws));
    forall r ensures (r in Tally(ws) <==> Given(ws, r)) && (r in Tally(ws) ==> Tally(ws)[r] == TotalOf(ws, r)) {
      TallyIs(ws, r);
    }
  }

  /** The main reason: none occurred more often, and none as often has a lesser name. */
  ghost predicate IsMain(ws: seq<Event>, r: string) {
    && Given(ws, r)
    && forall q :: Given(ws, q) && q != r ==>
         TotalOf(ws, q) < TotalOf(ws, r) || (TotalOf(ws, q) == TotalOf(ws, r) && StringLess(r, q))
  }

  lemma MainOnTop(ws: seq<Event>, table: seq<ReasonCount>)
    requires ReasonsOf(ws, table) && table != []
    ensures IsMain(ws, table[0].reason)
  {
    forall q | Given(ws, q) && q != table[0].reason
      ensures TotalOf(ws, q) < TotalOf(ws, table[0].reason)
              || (TotalOf(ws, q) == TotalOf(ws, table[0].reason) && StringLess(table[0].reason, q))
    {
      var k :| 0 <= k < |table| && table[k].reason == q;
      assert Above(table[0], table[k]);
    }
  }

  lemma OneMain(ws: seq<Event>, q: string, r: string)
    requires IsMain(ws, q) && IsMain(ws, r)
    ensures q == r
  {
    if q != r {
      StringLessAsymmetric(q, r);
    }
  }

  // ---- Times, counts and the warning quoted --------------------------------

  ghost function Counts(ws: seq<Event>): int {
    if ws == [] then 0 else Counts(ws[..|ws| - 1]) + ws[|ws| - 1].count
  }

  lemma {:induction false} CountsAre(ws: seq<Event>)
    ensures SumBy(ws, EventCount) == Counts(ws)
  {
    if ws != [] {
      CountsAre(ws[..|ws| - 1]);
    }
  }

  /** When a warning was first seen; when that is not known, when it was last. */
  ghost function Since(w: Event): Time {
    if w.first != ZERO_TIME then w.first else w.last
  }

  /** Times all known: the earliest. */
  ghost predicate StartOf(ws: seq<Event>, t: Time) {
    && (exists w :: w in ws && Since(w) == t)
    && ((forall w :: w in ws ==> Since(w) != ZERO_TIME) ==> forall w :: w in ws ==> t <= Since(w))
  }

  lemma StartIs(ws: seq<Event>)
    requires ws != []
    ensures StartOf(ws, Earliest(Map(FirstTime, ws)))
  {
    var ts := Map(FirstTime, ws);
    EarliestIsMember(ts);
    var i :| 0 <= i < |ts| && ts[i] == Earliest(ts);
    assert ws[i] in ws && Since(ws[i]) == ts[i];
    forall w | w in ws ensures Since(w) in ts {
      var k :| 0 <= k < |ws| && ws[k] == w;
      assert ts[k] == Since(w);
    }
    if forall w :: w in ws ==> Since(w) != ZERO_TIME {
      forall t | t in ts ensures t != ZERO_TIME {
        var k :| 0 <= k < |ts| && ts[k] == t;
        assert ws[k] in ws;
      }
    }
  }

  /** The warning quoted: the first of those seen last. */
  ghost predicate Quoted(ws: seq<Event>, k: nat, at: Time, message: string) {
    && k < |ws| && ws[k].last == at && ws[k].message == message
    && (forall j :: 0 <= j < |ws| ==> ws[j].last <= at)
    && (forall j :: 0 <= j < k ==> ws[j].last < at)
  }

  lemma {:induction false} NewestIsQuoted(ws: seq<Event>) returns (k: nat)
    requires ws != []
    ensures Quoted(ws, k, NewestOf(ws).last, NewestOf(ws).message)
  {
    var n := |ws| - 1;
    if n == 0 {
      k := 0;
    } else {
      k := NewestIsQuoted(ws[..n]);
      if ws[n].last > NewestOf(ws[..n]).last {
        k := n;
      }
    }
  }

  lemma {:induction false} LatestIsNewest(ws: seq<Event>)
    requires ws != []
    ensures Latest(ws[0].last, Map(LastTime, ws)) == NewestOf(ws).last
  {
    var n := |ws| - 1;
    assert ws == ws[..n] + [ws[n]];
    MapStep(LastTime, ws, n);
    assert ws[..|ws|] == ws;
    LatestStep(ws[0].last, Map(LastTime, ws[..n]), ws[n].last);
    if n == 0 {
      assert Map(LastTime, ws[..0]) == [];
    } else {
      LatestIsNewest(ws[..n]);
    }
  }

  /** New for two hours, ongoing until it is a day old; idle from a quarter of an hour without a warning. */
  ghost predicate AgedAt(p: Problem, now: Time) {
    && (p.tier.New? <==> now - p.firstSeen < 7_200_000_000_000)
    && (p.tier.Chronic? <==> now - p.firstSeen >= 86_400_000_000_000)
    && (p.idle <==> now - p.lastSeen >= 900_000_000_000)
  }

  lemma IdleExactly(now: Time, last: Time)
    ensures IdleAt(now, last) <==> now - last >= 900_000_000_000
  {
  }

  lemma AgeExactly(p: Problem, now: Time)
    ensures AgedAt(p, now) <==> Timed(p, now) == p
  {
  }

  /** All that a row says of its warnings, except since when. */
  ghost predicate Tells(p: Problem, ws: seq<Event>, now: Time) {
    && ReasonsOf(ws, p.reasons) && p.occurrences == Counts(ws)
    && (exists k: nat :: Quoted(ws, k, p.lastSeen, p.message))
    && AgedAt(p, now)
  }

  /** A filled row tells its warnings. */
  lemma FilledTells(p: Problem, ws: seq<Event>, now: Time)
    requires ws != []
    ensures Tells(Filled(p, ws, now), ws, now) && StartOf(ws, Filled(p, ws, now).firstSeen)
  {
    var f := Filled(p, ws, now);
    ReasonsAre(ws);
    CountsAre(ws);
    StartIs(ws);
    var k := NewestIsQuoted(ws);
    LatestIsNewest(ws);
    assert Quoted(ws, k, f.lastSeen, f.message);
    AgeExactly(f, now);
  }
}
