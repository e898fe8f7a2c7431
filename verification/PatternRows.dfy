/** What a pattern row says of its members, told by their own fields (makePattern in problems.go). */
module PatternRows {
  import opened Clock
  import opened Sequences
  import opened Strings
  import opened Tables
  import opened Problems
  import opened RowLaws
  import Tokens

  /** Members with more occurrences first, of equals the one with the lesser key. */
  ghost predicate MemberOrder(s: seq<Problem>) {
    forall i, j :: 0 <= i < j < |s| ==>
      s[i].occurrences > s[j].occurrences
      || (s[i].occurrences == s[j].occurrences && (s[i].key == s[j].key || StringLess(s[i].key, s[j].key)))
  }

  lemma MemberOrderExactly(s: seq<Problem>)
    ensures Sorted(s, MemberBefore) <==> MemberOrder(s)
  {
    forall i, j | 0 <= i < j < |s|
      ensures !MemberBefore(s[j], s[i]) <==>
              s[i].occurrences > s[j].occurrences
              || (s[i].occurrences == s[j].occurrences && (s[i].key == s[j].key || StringLess(s[i].key, s[j].key)))
    {
      StringLessTrichotomy(s[i].key, s[j].key);
      if StringLess(s[i].key, s[j].key) {
        StringLessAsymmetric(s[i].key, s[j].key);
      }
    }
  }

  ghost predicate MembersComplete(s: seq<Problem>) {
    forall i :: 0 <= i < |s| ==> Complete(s[i])
  }

  /** One item for each member, with its main reason. */
  ghost predicate ItemsOf(s: seq<Problem>, items: seq<PatternItem>)
    requires MembersComplete(s)
  {
    && |items| == |s|
    && forall k :: 0 <= k < |s| ==>
         && items[k].namespace == s[k].namespaces[0] && items[k].kind == s[k].kind && items[k].name == s[k].title
         && items[k].reason == s[k].reasons[0].reason && items[k].occurrences == s[k].occurrences
         && items[k].idle == s[k].idle && items[k].focus == s[k].focus
  }

  lemma ItemsExactly(s: seq<Problem>, items: seq<PatternItem>)
    requires MembersComplete(s)
    ensures items == Map(Item, s) <==> ItemsOf(s, items)
  {
  }

  // ---- Reasons -------------------------------------------------------------

  ghost function RowTotal(rows: seq<ReasonCount>, r: string): int {
    if rows == [] then 0
    else RowTotal(rows[..|rows| - 1], r) + if rows[|rows| - 1].reason == r then rows[|rows| - 1].count else 0
  }

  /** How often a reason occurred in all the members. */
  ghost function MemberTotal(s: seq<Problem>, r: string): int {
    if s == [] then 0 else MemberTotal(s[..|s| - 1], r) + RowTotal(s[|s| - 1].reasons, r)
  }

  ghost predicate Names(rows: seq<ReasonCount>, r: string) {
    exists k :: 0 <= k < |rows| && rows[k].reason == r
  }

  ghost predicate SomeNames(s: seq<Problem>, r: string) {
    exists i :: 0 <= i < |s| && Names(s[i].reasons, r)
  }

  lemma {:induction false} AddRowsIs(counts: map<string, int>, rows: seq<ReasonCount>, r: string)
    ensures At(AddRows(counts, rows))(r) == At(counts)(r) + RowTotal(rows, r)
    ensures r in AddRows(counts, rows) <==> r in counts || Names(rows, r)
  {
    if rows != [] {
      var n := |rows| - 1;
      AddRowsIs(counts, rows[..n], r);
      assert Names(rows, r) <==> Names(rows[..n], r) || rows[n].reason == r;
    }
  }

  lemma {:induction false} MergedTallyIs(s: seq<Problem>, r: string)
    ensures At(MergedTally(s))(r) == MemberTotal(s, r)
    ensures r in MergedTally(s) <==> SomeNames(s, r)
  {
    if s != [] {
      var n := |s| - 1;
      MergedTallyIs(s[..n], r);
      AddRowsIs(MergedTally(s[..n]), s[n].reasons, r);
      assert SomeNames(s, r) <==> SomeNames(s[..n], r) || Names(s[n].reasons, r);
    }
  }

  /** The occurrences of the members whose main reason is r. */
  ghost function MainTotal(s: seq<Problem>, r: string): int
    requires MembersComplete(s)
  {
    if s == [] then 0
    else MainTotal(s[..|s| - 1], r) + if s[|s| - 1].reasons[0].reason == r then s[|s| - 1].occurrences else 0
  }

  lemma {:induction false} PrimariesAre(s: seq<Problem>, r: string)
    requires MembersComplete(s)
    ensures At(Primaries(s))(r) == MainTotal(s, r)
    ensures r in Primaries(s) <==> exists i :: 0 <= i < |s| && s[i].reasons[0].reason == r
  {
    if s != [] {
      PrimariesAre(s[..|s| - 1], r);
    }
  }

  /** A table of the reasons in `there`, each with its total, the largest on top. */
  ghost predicate Table(there: string -> bool, total: string -> int, table: seq<ReasonCount>) {
    && (forall k :: 0 <= k < |table| ==> there(table[k].reason) && table[k].count == total(table[k].reason))
    && (forall r :: there(r) ==> Names(table, r))
    && (forall j, k :: 0 <= j < k < |table| ==> table[j].reason != table[k].reason && Above(table[j], table[k]))
  }

  lemma TableOfTotals(counts: map<string, int>, there: string -> bool, total: string -> int)
    requires forall r :: (r in counts <==> there(r)) && At(counts)(r) == total(r)
    ensures Table(there, total, ReasonTable(counts))
  {
    TableIs(counts);
  }

  /** The members' main reasons, each with the occurrences of the rows it is the main one of. */
  ghost predicate MainsOf(s: seq<Problem>, mains: seq<ReasonCount>)
    requires MembersComplete(s)
  {
    Table(r => exists i :: 0 <= i < |s| && s[i].reasons[0].reason == r, r => MainTotal(s, r), mains)
  }

  lemma MainsAre(s: seq<Problem>)
    requires MembersComplete(s)
    ensures MainsOf(s, ReasonTable(Primaries(s)))
  {
    var there, total := r => exists i :: 0 <= i < |s| && s[i].reasons[0].reason == r, r => MainTotal(s, r);
    forall r ensures (r in Primaries(s) <==> there(r)) && At(Primaries(s))(r) == total(r) {
      PrimariesAre(s, r);
    }
    TableOfTotals(Primaries(s), there, total);
  }

  /** The title names the workload when all members share its name, and otherwise the reason with the most
      occurrences, with the second or the number of others beside it. */
  ghost predicate Titles(s: seq<Problem>, title: string, mains: seq<ReasonCount>, n: nat)
    requires s != [] && mains != []
  {
    title == (if forall i :: 0 <= i < |s| ==> s[i].title == s[0].title then s[0].title
              else if |mains| == 1 then mains[0].reason
              else if |mains| == 2 then mains[0].reason + " + " + mains[1].reason
              else mains[0].reason + " + " + Tokens.Decimal(|mains| - 1) + " more")
             + " in " + Tokens.Decimal(n) + " namespaces"
  }

  lemma TitleIs(s: seq<Problem>, mains: seq<ReasonCount>, n: nat)
    requires s != [] && mains != []
    ensures Titles(s, TitleFor(SameName(s), s[0].title, mains, n), mains, n)
  {
    assert SameName(s) <==> forall i :: 0 <= i < |s| ==> s[i].title == s[0].title by {
      forall i | 0 <= i < |s| ensures s[i] in s {}
    }
  }

  lemma PatternTitled(s: seq<Problem>, now: Time)
    requires s != [] && MembersComplete(s)
    ensures exists mains :: MainsOf(s, mains) && mains != []
                            && Titles(s, PatternOf(s, now).title, mains, |PatternOf(s, now).namespaces|)
  {
    var mains := ReasonTable(Primaries(s));
    MainsAre(s);
    PrimariesThere(s);
    TitleIs(s, mains, |Listing(HomesOf(s))|);
  }

  // ---- Times ---------------------------------------------------------------

  /** The earliest start, when all are known; the latest of the members' last warnings, and the first member that has
      it for the message. */
  ghost predicate TimesOf(s: seq<Problem>, p: Problem) {
    && (exists i :: 0 <= i < |s| && s[i].firstSeen == p.firstSeen)
    && ((forall i :: 0 <= i < |s| ==> s[i].firstSeen != ZERO_TIME) ==>
          forall i :: 0 <= i < |s| ==> p.firstSeen <= s[i].firstSeen)
    && (forall i :: 0 <= i < |s| ==> s[i].lastSeen <= p.lastSeen)
    && (p.lastSeen > ZERO_TIME ==> exists k: nat :: Speaks(s, k, p))
    && (p.lastSeen <= ZERO_TIME ==> p.lastSeen == ZERO_TIME && p.message == "")
  }

  ghost predicate Speaks(s: seq<Problem>, k: nat, p: Problem) {
    && k < |s| && s[k].lastSeen == p.lastSeen && s[k].message == p.message
    && forall j :: 0 <= j < k ==> s[j].lastSeen < p.lastSeen
  }

  lemma {:induction false} LastSpeaks(s: seq<Problem>) returns (k: nat)
    ensures var last := Latest(ZERO_TIME, Map(LastSeen, s));
            && last >= ZERO_TIME && (forall i :: 0 <= i < |s| ==> s[i].lastSeen <= last)
            && (if last == ZERO_TIME then NewestMessage(s) == ""
                else k < |s| && s[k].lastSeen == last && s[k].message == NewestMessage(s)
                     && forall j :: 0 <= j < k ==> s[j].lastSeen < last)
  {
    k := 0;
    if s != [] {
      var n := |s| - 1;
      var before := Latest(ZERO_TIME, Map(LastSeen, s[..n]));
      k := LastSpeaks(s[..n]);
      assert s == s[..n + 1];
      MapStep(LastSeen, s, n);
      LatestStep(ZERO_TIME, Map(LastSeen, s[..n]), s[n].lastSeen);
      if s[n].lastSeen > before {
        k := n;
      }
    }
  }

  lemma TimesAre(s: seq<Problem>, now: Time)
    requires s != []
    ensures TimesOf(s, PatternOf(s, now))
  {
    var p, ts := PatternOf(s, now), Map(FirstSeen, s);
    EarliestIsMember(ts);
    var i :| 0 <= i < |ts| && ts[i] == Earliest(ts);
    assert s[i].firstSeen == p.firstSeen;
    if forall i :: 0 <= i < |s| ==> s[i].firstSeen != ZERO_TIME {
      forall i | 0 <= i < |s| ensures p.firstSeen <= s[i].firstSeen {
        assert ts[i] in ts;
      }
    }
    var k := LastSpeaks(s);
    assert p.lastSeen > ZERO_TIME ==> Speaks(s, k, p);
  }

  // ---- The whole row -------------------------------------------------------

  ghost function Occurred(s: seq<Problem>): int {
    if s == [] then 0 else Occurred(s[..|s| - 1]) + s[|s| - 1].occurrences
  }

  lemma {:induction false} OccurredIs(s: seq<Problem>)
    ensures SumBy(s, Occurrences) == Occurred(s)
  {
    if s != [] {
      OccurredIs(s[..|s| - 1]);
    }
  }

  /** The members' namespaces, each once and in order. */
  ghost predicate NamespacesOf(s: seq<Problem>, names: seq<string>)
    requires MembersComplete(s)
  {
    && (forall i, j :: 0 <= i < j < |names| ==> StringLess(names[i], names[j]))
    && (forall n :: n in names <==> exists i :: 0 <= i < |s| && s[i].namespaces[0] == n)
  }

  lemma NamespacesAre(s: seq<Problem>)
    requires MembersComplete(s)
    ensures NamespacesOf(s, StableSort(Listing(HomesOf(s)), StringLess))
  {
    var listed := Listing(HomesOf(s));
    var names := StableSort(listed, StringLess);
    StringLessIsWeakOrder();
    StableSortPermutes(listed, StringLess);
    StableSortSorted(listed, StringLess);
    PermutesMembers(names, listed);
    PermutesDistinct(names, listed);
    forall i, j | 0 <= i < j < |names| ensures StringLess(names[i], names[j]) {
      StringLessTrichotomy(names[i], names[j]);
    }
    forall n ensures n in names <==> exists i :: 0 <= i < |s| && s[i].namespaces[0] == n {
      HomeAt(s, n);
    }
  }

  lemma HomeAt(s: seq<Problem>, n: string)
    requires MembersComplete(s)
    ensures n in HomesOf(s) <==> exists i :: 0 <= i < |s| && s[i].namespaces[0] == n
  {
    if n in HomesOf(s) {
      var p :| p in s && Home(p) == n;
      var i :| 0 <= i < |s| && s[i] == p;
    }
    if i :| 0 <= i < |s| && s[i].namespaces[0] == n {
      assert s[i] in s;
    }
  }

  /** The members' reasons, each with its total over all of them. */
  ghost predicate AddedUp(s: seq<Problem>, table: seq<ReasonCount>) {
    Table(r => SomeNames(s, r), r => MemberTotal(s, r), table)
  }

  lemma ReasonsAddUp(s: seq<Problem>)
    ensures AddedUp(s, ReasonTable(MergedTally(s)))
  {
    var there, total := r => SomeNames(s, r), r => MemberTotal(s, r);
    forall r ensures (r in MergedTally(s) <==> there(r)) && At(MergedTally(s))(r) == total(r) {
      MergedTallyIs(s, r);
    }
    TableOfTotals(MergedTally(s), there, total);
  }

  /** The pattern row of its members. */
  ghost predicate Summarises(p: Problem, s: seq<Problem>, now: Time)
    requires s != [] && MembersComplete(s)
  {
    && p.scope == Pattern && ItemsOf(s, p.items) && p.occurrences == Occurred(s)
    && NamespacesOf(s, p.namespaces)
    && AddedUp(s, p.reasons)
    && TimesOf(s, p) && (p.idle <==> now - p.lastSeen >= 900_000_000_000)
    && (p.cascade <==> exists i :: 0 <= i < |s| && s[i].cascade)
    && p.tier == s[0].tier
    && p.kind == if forall i :: 0 <= i < |s| ==> s[i].kind == s[0].kind then s[0].kind else ""
  }

  lemma AnyMember(s: seq<Problem>, now: Time)
    requires s != []
    ensures PatternOf(s, now).cascade <==> exists i :: 0 <= i < |s| && s[i].cascade
    ensures SameKind(s) <==> forall i :: 0 <= i < |s| ==> s[i].kind == s[0].kind
    ensures SameName(s) <==> forall i :: 0 <= i < |s| ==> s[i].title == s[0].title
  {
    forall i | 0 <= i < |s| ensures s[i] in s {}
  }

  /** A pattern row tells its members, listed in their order. */
  lemma PatternTells(members: seq<Problem>, now: Time, p: Problem) returns (s: seq<Problem>)
    requires (forall m :: m in members ==> Complete(m)) && IsPatternOf(members, now, p)
    ensures s != [] && Permutes(s, members) && MemberOrder(s) && MembersComplete(s) && Summarises(p, s, now)
  {
    s := MemberOrderOf(members, now, p);
    MemberOrderExactly(s);
    RelistedComplete(s, members);
    PatternSummarises(s, now);
  }

  lemma RelistedComplete(s: seq<Problem>, members: seq<Problem>)
    requires Permutes(s, members) && forall m :: m in members ==> Complete(m)
    ensures MembersComplete(s)
  {
    PermutesMembers(s, members);
    forall i | 0 <= i < |s| ensures Complete(s[i]) {
      assert s[i] in s;
    }
  }

  lemma PatternSummarises(s: seq<Problem>, now: Time)
    requires s != [] && MembersComplete(s)
    ensures Summarises(PatternOf(s, now), s, now)
  {
    ItemsExactly(s, Map(Item, s));
    OccurredIs(s);
    NamespacesAre(s);
    ReasonsAddUp(s);
    TimesAre(s, now);
    AnyMember(s, now);
    IdleExactly(now, PatternOf(s, now).lastSeen);
  }
}
