/** The rows of the home page: how a row is filled from warnings, and how a pattern row is made from
    member rows (problems.go). */
module Problems {
  import opened Clock
  import opened Sequences
  import opened Strings
  import opened Tables
  import opened Events
  import Tokens

  const PATTERN_START_WINDOW := 10 * SECOND

  const TIER_NEW_MAX := 2 * HOUR
  const TIER_ONGOING_MAX := 24 * HOUR
  const IDLE_AFTER := 15 * MINUTE

  datatype Tier = New | Ongoing | Chronic
  datatype Scope = Namespace | Cluster | Pattern
  datatype ReasonCount = ReasonCount(reason: string, count: int)
  datatype PatternItem = PatternItem(
    namespace: string, kind: string, name: string, reason: string, occurrences: int, idle: bool, focus: string)

  /** Why a pattern's members are one row: the sentence it shows. */
  datatype Why =
    | NoPattern
    | SameSecond(at: Time)
    | Within(seconds: int, from: Time, to: Time)
    | SameWorkload(name: string, namespaces: nat)
    | SameReason(namespaces: nat)

  datatype Problem = Problem(
    key: string,
    scope: Scope,
    kind: string,
    title: string,
    namespaces: seq<string>,
    focus: string,
    tier: Tier,
    cascade: bool,
    idle: bool,
    inferred: bool,
    reasons: seq<ReasonCount>,
    occurrences: int,
    firstSeen: Time,
    lastSeen: Time,
    message: string,
    pod: string,
    why: Why,
    items: seq<PatternItem>)

  // ---- Timing --------------------------------------------------------------

  function TierAt(now: Time, firstSeen: Time): Tier {
    var age := Sub(now, firstSeen);
    if age < TIER_NEW_MAX then New else if age < TIER_ONGOING_MAX then Ongoing else Chronic
  }

  function IdleAt(now: Time, lastSeen: Time): bool {
    Sub(now, lastSeen) >= IDLE_AFTER
  }

  function Timed(p: Problem, now: Time): Problem {
    p.(tier := TierAt(now, p.firstSeen), idle := IdleAt(now, p.lastSeen))
  }

  /** The rule that keeps the earliest time seen so far; the zero time counts as "none yet". */
  function Earlier(acc: Time, t: Time): Time {
    if acc == ZERO_TIME || t < acc then t else acc
  }

  function Earliest(ts: seq<Time>): Time {
    if ts == [] then ZERO_TIME else Earlier(Earliest(ts[..|ts| - 1]), ts[|ts| - 1])
  }

  /** The kept time is always one of the given ones, and it is the earliest exactly when the zero time
      does not get in the way: a zero that is not the last one is forgotten again. */
  lemma {:induction false} EarliestIsMember(ts: seq<Time>)
    requires ts != []
    ensures Earliest(ts) in ts
    ensures (forall t :: t in ts ==> t != ZERO_TIME) ==> forall t :: t in ts ==> Earliest(ts) <= t
  {
    var front, last := ts[..|ts| - 1], ts[|ts| - 1];
    assert ts == front + [last];
    if front != [] {
      EarliestIsMember(front);
    }
    if forall t :: t in ts ==> t != ZERO_TIME {
      assert forall t :: t in front ==> t in ts;
      forall t | t in ts ensures Earliest(ts) <= t {
        assert t in front || t == last;
        if front != [] {
          assert Earliest(front) in ts;
        }
      }
    }
  }

  lemma EarliestStep(ts: seq<Time>, t: Time)
    ensures Earliest(ts + [t]) == Earlier(Earliest(ts), t)
  {
    assert (ts + [t])[..|ts|] == ts;
  }

  function Latest(acc: Time, ts: seq<Time>): Time {
    if ts == [] then acc else
      var before := Latest(acc, ts[..|ts| - 1]);
      if ts[|ts| - 1] > before then ts[|ts| - 1] else before
  }

  lemma LatestStep(acc: Time, ts: seq<Time>, t: Time)
    ensures Latest(acc, ts + [t]) == if t > Latest(acc, ts) then t else Latest(acc, ts)
  {
    assert (ts + [t])[..|ts|] == ts;
  }

  lemma {:induction false} LatestIsMax(ts: seq<Time>)
    ensures Latest(ZERO_TIME, ts) == ZERO_TIME || Latest(ZERO_TIME, ts) in ts
    ensures Latest(ZERO_TIME, ts) >= ZERO_TIME && forall t :: t in ts ==> t <= Latest(ZERO_TIME, ts)
  {
    if ts != [] {
      var front, t := ts[..|ts| - 1], ts[|ts| - 1];
      LatestIsMax(front);
      assert forall u :: u in ts <==> u in front || u == t;
    }
  }

  // ---- Reason tables -------------------------------------------------------

  predicate MoreFrequent(a: ReasonCount, b: ReasonCount) {
    if a.count != b.count then a.count > b.count else StringLess(a.reason, b.reason)
  }

  lemma MoreFrequentIsWeakOrder()
    ensures WeakOrder(MoreFrequent)
  {
    StringLessTotal();
    forall x, y, z | !MoreFrequent(y, x) && !MoreFrequent(z, y) ensures !MoreFrequent(z, x) {
      assert x.count == y.count ==> x.reason == y.reason || StringLess(x.reason, y.reason);
      assert y.count == z.count ==> y.reason == z.reason || StringLess(y.reason, z.reason);
    }
  }

  function Row(counts: map<string, int>): string -> ReasonCount {
    r => ReasonCount(r, if r in counts then counts[r] else 0)
  }

  function Rows(counts: map<string, int>, rs: seq<string>): seq<ReasonCount> {
    Map(Row(counts), rs)
  }

  /** The table of a tally, most frequent first. */
  ghost function ReasonTable(counts: map<string, int>): seq<ReasonCount> {
    StableSort(Rows(counts, Listing(counts.Keys)), MoreFrequent)
  }

  function CountOf(rc: ReasonCount): int { rc.count }

  lemma {:induction false} RowsTotal(counts: map<string, int>, rs: seq<string>)
    ensures SumBy(Rows(counts, rs), CountOf) == SumBy(rs, At(counts))
  {
    if rs != [] {
      RowsTotal(counts, rs[..|rs| - 1]);
      MapStep(Row(counts), rs, |rs| - 1);
      assert rs[..|rs|] == rs;
    }
  }

  /** What a sorted table of some iteration order must be. */
  lemma ReasonTableUnique(counts: map<string, int>, ks: seq<string>, table: seq<ReasonCount>)
    requires Distinct(ks) && forall k :: k in ks <==> k in counts
    requires Permutes(table, Rows(counts, ks)) && Sorted(table, MoreFrequent)
    ensures table == ReasonTable(counts)
  {
    var ls := Listing(counts.Keys);
    DistinctPermutes(ks, ls);
    MapPermutes(Row(counts), ks, ls);
    MoreFrequentIsWeakOrder();
    StableSortPermutes(Rows(counts, ls), MoreFrequent);
    StableSortSorted(Rows(counts, ls), MoreFrequent);
    StringLessTotal();
    SortedUnique(table, ReasonTable(counts), MoreFrequent);
  }

  /** A table's counts add up to the tally, and it is empty only for an empty tally. */
  lemma ReasonTableTotal(counts: map<string, int>)
    ensures SumBy(ReasonTable(counts), CountOf) == MapTotal(counts)
    ensures |ReasonTable(counts)| == |Listing(counts.Keys)|
  {
    var rows := Rows(counts, Listing(counts.Keys));
    StableSortPermutes(rows, MoreFrequent);
    SumByPermutation(StableSort(rows, MoreFrequent), rows, CountOf);
    RowsTotal(counts, Listing(counts.Keys));
  }

  method SortedReasons(counts: map<string, int>) returns (table: seq<ReasonCount>)
    ensures table == ReasonTable(counts)
  {
    var ks := IterationOrder(counts.Keys);
    var rows := [];
    for i := 0 to |ks|
      invariant rows == Rows(counts, ks[..i])
    {
      PrefixStep(ks, i);
      MapStep(Row(counts), ks, i);
      assert ks[i] in ks && Row(counts)(ks[i]) == ReasonCount(ks[i], counts[ks[i]]);
      rows := rows + [ReasonCount(ks[i], counts[ks[i]])];
    }
    assert ks[..|ks|] == ks;
    MoreFrequentIsWeakOrder();
    table := Sort(rows, MoreFrequent);
    ReasonTableUnique(counts, ks, table);
  }

  // ---- A row from its warnings ---------------------------------------------

  function EventCount(e: Event): int { e.count }

  function Tally(warnings: seq<Event>): map<string, int> {
    if warnings == [] then map[]
    else var e := warnings[|warnings| - 1]; Add(Tally(warnings[..|warnings| - 1]), e.reason, e.count)
  }

  lemma TallyStep(warnings: seq<Event>, i: nat)
    requires i < |warnings|
    ensures Tally(warnings[..i + 1]) == Add(Tally(warnings[..i]), warnings[i].reason, warnings[i].count)
  {
    PrefixStep(warnings, i);
  }

  lemma {:induction false} TallyTotal(warnings: seq<Event>)
    ensures MapTotal(Tally(warnings)) == SumBy(warnings, EventCount)
    ensures warnings != [] ==> Tally(warnings).Keys != {}
  {
    if warnings == [] {
      MapTotalEmpty<string>();
    } else {
      var front, e := warnings[..|warnings| - 1], warnings[|warnings| - 1];
      TallyTotal(front);
      AddTotal(Tally(front), e.reason, e.count);
      assert e.reason in Tally(warnings);
    }
  }

  function FirstTime(e: Event): Time {
    if e.first == ZERO_TIME then e.last else e.first
  }

  function LastTime(e: Event): Time {
    e.last
  }

  /** The warning a row quotes: the first of the latest ones. */
  function NewestOf(warnings: seq<Event>): Event
    requires warnings != []
  {
    var n := |warnings| - 1;
    if n == 0 then warnings[0] else
      var before := NewestOf(warnings[..n]);
      if warnings[n].last > before.last then warnings[n] else before
  }

  predicate NewestSoFar(warnings: seq<Event>, i: nat, newest: Event)
    requires warnings != [] && i <= |warnings|
  {
    newest == if i == 0 then warnings[0] else NewestOf(warnings[..i])
  }

  lemma NewestStep(warnings: seq<Event>, i: nat, newest: Event)
    requires i < |warnings| && NewestSoFar(warnings, i, newest)
    ensures NewestSoFar(warnings, i + 1, if i == 0 || warnings[i].last > newest.last then warnings[i] else newest)
  {
    PrefixStep(warnings, i);
  }

  /** The row `p` filled from its warnings. */
  ghost function Filled(p: Problem, warnings: seq<Event>, now: Time): Problem
    requires warnings != []
  {
    Timed(p.(reasons := ReasonTable(Tally(warnings)),
             occurrences := SumBy(warnings, EventCount),
             firstSeen := Earliest(Map(FirstTime, warnings)),
             lastSeen := Latest(warnings[0].last, Map(LastTime, warnings)),
             message := NewestOf(warnings).message), now)
  }

  /** What the loop has gathered from the warnings it has visited. */
  datatype Sighting = Sighting(counts: map<string, int>, occurrences: int, first: Time, newest: Event)

  /** One warning more. */
  function Sight(s: Sighting, e: Event, isFirst: bool): Sighting {
    Sighting(Add(s.counts, e.reason, e.count), s.occurrences + e.count, Earlier(s.first, FirstTime(e)),
             if isFirst || e.last > s.newest.last then e else s.newest)
  }

  ghost predicate Surveyed(warnings: seq<Event>, i: nat, s: Sighting)
    requires warnings != [] && i <= |warnings|
  {
    && s.counts == Tally(warnings[..i])
    && s.occurrences == SumBy(warnings[..i], EventCount)
    && s.first == Earliest(Map(FirstTime, warnings[..i]))
    && s.newest.last == Latest(warnings[0].last, Map(LastTime, warnings[..i]))
    && NewestSoFar(warnings, i, s.newest)
  }

  lemma SurveyStep(ws: seq<Event>, i: nat, s: Sighting)
    requires i < |ws| && Surveyed(ws, i, s)
    ensures Surveyed(ws, i + 1, Sight(s, ws[i], i == 0))
  {
    MapStep(FirstTime, ws, i);
    EarliestStep(Map(FirstTime, ws[..i]), FirstTime(ws[i]));
    MapStep(LastTime, ws, i);
    LatestStep(ws[0].last, Map(LastTime, ws[..i]), ws[i].last);
    SumByStep(ws, EventCount, i);
    TallyStep(ws, i);
    NewestStep(ws, i, s.newest);
  }

  method Survey(warnings: seq<Event>) returns (s: Sighting)
    requires warnings != []
    ensures Surveyed(warnings, |warnings|, s)
  {
    s := Sighting(map[], 0, ZERO_TIME, warnings[0]);
    for i := 0 to |warnings|
      invariant Surveyed(warnings, i, s)
    {
      SurveyStep(warnings, i, s);
      s := Sight(s, warnings[i], i == 0);
    }
  }

  method FillFromWarnings(p: Problem, warnings: seq<Event>, now: Time) returns (r: Problem)
    requires warnings != []
    ensures r == Filled(p, warnings, now)
  {
    var s := Survey(warnings);
    assert warnings[..|warnings|] == warnings;
    var reasons := SortedReasons(s.counts);
    r := Timed(p.(reasons := reasons, occurrences := s.occurrences, firstSeen := s.first, lastSeen := s.newest.last,
                  message := s.newest.message), now);
  }

  /** A filled row accounts for every occurrence, names a reason, and has the tier of its age. */
  lemma FilledAccounts(p: Problem, warnings: seq<Event>, now: Time)
    requires warnings != []
    ensures SumBy(Filled(p, warnings, now).reasons, CountOf) == Filled(p, warnings, now).occurrences
    ensures Filled(p, warnings, now).reasons != []
    ensures Filled(p, warnings, now).tier == TierAt(now, Filled(p, warnings, now).firstSeen)
  {
    TallyTotal(warnings);
    ReasonTableTotal(Tally(warnings));
  }

  // ---- A pattern row from its members --------------------------------------

  function Occurrences(p: Problem): int { p.occurrences }

  predicate MemberBefore(a: Problem, b: Problem) {
    if a.occurrences != b.occurrences then a.occurrences > b.occurrences else StringLess(a.key, b.key)
  }

  lemma MemberBeforeIsWeakOrder()
    ensures WeakOrder(MemberBefore)
  {
    StringLessTotal();
    forall x, y, z | !MemberBefore(y, x) && !MemberBefore(z, y) ensures !MemberBefore(z, x) {
      assert x.occurrences == y.occurrences ==> x.key == y.key || StringLess(x.key, y.key);
      assert y.occurrences == z.occurrences ==> y.key == z.key || StringLess(y.key, z.key);
    }
  }

  /** What the source expects of a namespace row: its namespace and at least one reason. */
  ghost predicate Complete(p: Problem) {
    |p.namespaces| == 1 && p.reasons != []
  }

  function AddRows(counts: map<string, int>, rows: seq<ReasonCount>): map<string, int> {
    if rows == [] then counts
    else var r := rows[|rows| - 1]; Add(AddRows(counts, rows[..|rows| - 1]), r.reason, r.count)
  }

  function MergedTally(ps: seq<Problem>): map<string, int> {
    if ps == [] then map[] else AddRows(MergedTally(ps[..|ps| - 1]), ps[|ps| - 1].reasons)
  }

  function Home(p: Problem): string {
    if p.namespaces == [] then "" else p.namespaces[0]
  }

  function Primary(p: Problem): string {
    if p.reasons == [] then "" else p.reasons[0].reason
  }

  function Item(p: Problem): PatternItem {
    PatternItem(Home(p), p.kind, p.title, Primary(p), p.occurrences, p.idle, p.focus)
  }

  function Key(p: Problem): string { p.key }
  function FirstSeen(p: Problem): Time { p.firstSeen }
  function LastSeen(p: Problem): Time { p.lastSeen }

  ghost function HomesOf(ps: seq<Problem>): set<string> {
    set p | p in ps :: Home(p)
  }

  const PATTERN_PREFIX := "pattern:"

  /** The message of the member seen last. */
  function NewestMessage(ps: seq<Problem>): string {
    if ps == [] then "" else
      var front, p := ps[..|ps| - 1], ps[|ps| - 1];
      if p.lastSeen > Latest(ZERO_TIME, Map(LastSeen, front)) then p.message else NewestMessage(front)
  }

  predicate SameKind(ps: seq<Problem>) {
    forall p :: p in ps ==> p.kind == ps[0].kind
  }

  predicate SameName(ps: seq<Problem>) {
    forall p :: p in ps ==> p.title == ps[0].title
  }

  /** The members' main reasons, with the occurrences of their rows. */
  function Primaries(ps: seq<Problem>): map<string, int> {
    if ps == [] then map[] else var p := ps[|ps| - 1]; Add(Primaries(ps[..|ps| - 1]), Primary(p), p.occurrences)
  }

  function InNamespaces(what: string, n: nat): string {
    what + " in " + Tokens.Decimal(n) + " namespaces"
  }

  /** The name of the workload when there is one; otherwise the main reasons. */
  function TitleFor(sameName: bool, name: string, reasons: seq<ReasonCount>, n: nat): string
    requires reasons != []
  {
    InNamespaces(
      if sameName then name
      else if |reasons| == 1 then reasons[0].reason
      else if |reasons| == 2 then reasons[0].reason + " + " + reasons[1].reason
      else reasons[0].reason + " + " + Tokens.Decimal(|reasons| - 1) + " more", n)
  }

  function WhyFor(sameName: bool, name: string, minFirst: Time, maxFirst: Time, n: nat): Why {
    var spread := Sub(maxFirst, minFirst);
    if spread < SECOND then SameSecond(minFirst)
    else if spread <= PATTERN_START_WINDOW then Within((spread + SECOND / 2) / SECOND, minFirst, maxFirst)
    else if sameName then SameWorkload(name, n)
    else SameReason(n)
  }

  ghost function PatternTitle(ps: seq<Problem>): string
    requires ps != []
  {
    PrimariesThere(ps);
    TitleFor(SameName(ps), ps[0].title, ReasonTable(Primaries(ps)), |Listing(HomesOf(ps))|)
  }

  ghost function PatternWhy(ps: seq<Problem>): Why
    requires ps != []
  {
    WhyFor(SameName(ps), ps[0].title, Earliest(Map(FirstSeen, ps)), Latest(ZERO_TIME, Map(FirstSeen, ps)),
        |Listing(HomesOf(ps))|)
  }

  lemma PrimariesThere(ps: seq<Problem>)
    requires ps != []
    ensures ReasonTable(Primaries(ps)) != []
  {
    assert Primary(ps[|ps| - 1]) in Primaries(ps);
    ReasonTableTotal(Primaries(ps));
    assert Primary(ps[|ps| - 1]) in Listing(Primaries(ps).Keys);
  }

  /** The pattern row of the members `ps`, already in member order. */
  ghost function PatternOf(ps: seq<Problem>, now: Time): Problem
    requires ps != []
  {
    var lastSeen := Latest(ZERO_TIME, Map(LastSeen, ps));
    Problem(PATTERN_PREFIX + Join(StableSort(Map(Key, ps), StringLess), ','),
            Pattern,
            if SameKind(ps) then ps[0].kind else "",
            PatternTitle(ps),
            StableSort(Listing(HomesOf(ps)), StringLess),
            "",
            ps[0].tier,
            exists p :: p in ps && p.cascade,
            IdleAt(now, lastSeen),
            false,
            ReasonTable(MergedTally(ps)),
            SumBy(ps, Occurrences),
            Earliest(Map(FirstSeen, ps)),
            lastSeen,
            NewestMessage(ps),
            "",
            PatternWhy(ps),
            Map(Item, ps))
  }

  method SortStrings(xs: seq<string>) returns (ys: seq<string>)
    ensures ys == StableSort(xs, StringLess)
  {
    StringLessIsWeakOrder();
    ys := Sort(xs, StringLess);
    StableSortPermutes(xs, StringLess);
    StableSortSorted(xs, StringLess);
    StringLessTotal();
    SortedUnique(ys, StableSort(xs, StringLess), StringLess);
  }

  /** Sorted strings depend only on which strings there are, not on how they were listed. */
  lemma SortedStringsUnique(xs: seq<string>, ys: seq<string>)
    requires Permutes(xs, ys)
    ensures StableSort(xs, StringLess) == StableSort(ys, StringLess)
  {
    StringLessIsWeakOrder();
    StableSortPermutes(xs, StringLess);
    StableSortSorted(xs, StringLess);
    StableSortPermutes(ys, StringLess);
    StableSortSorted(ys, StringLess);
    StringLessTotal();
    SortedUnique(StableSort(xs, StringLess), StableSort(ys, StringLess), StringLess);
  }

  method SortStringSet(keys: set<string>) returns (ys: seq<string>)
    ensures ys == StableSort(Listing(keys), StringLess)
  {
    var ks := IterationOrder(keys);
    ys := SortStrings(ks);
    DistinctPermutes(ks, Listing(keys));
    SortedStringsUnique(ks, Listing(keys));
  }

  method AddReasons(before: map<string, int>, rows: seq<ReasonCount>) returns (counts: map<string, int>)
    ensures counts == AddRows(before, rows)
  {
    counts := before;
    for i := 0 to |rows|
      invariant counts == AddRows(before, rows[..i])
    {
      counts := Add(counts, rows[i].reason, rows[i].count);
      assert rows[..i + 1][..i] == rows[..i];
    }
    assert rows[..|rows|] == rows;
  }

  /** What the pattern loop has gathered from the members it has visited. */
  datatype Gathered = Gathered(
    keys: seq<string>, homes: set<string>, items: seq<PatternItem>, occurrences: int,
    firstSeen: Time, lastSeen: Time, maxFirst: Time, message: string, sameKind: bool, sameName: bool, cascade: bool)

  ghost predicate TimesFrom(g: Gathered, ps: seq<Problem>) {
    && g.firstSeen == Earliest(Map(FirstSeen, ps))
    && g.lastSeen == Latest(ZERO_TIME, Map(LastSeen, ps))
    && g.maxFirst == Latest(ZERO_TIME, Map(FirstSeen, ps))
    && g.message == NewestMessage(ps)
  }

  ghost predicate GatheredFrom(g: Gathered, ps: seq<Problem>) {
    && g.keys == Map(Key, ps)
    && g.homes == HomesOf(ps)
    && g.items == Map(Item, ps)
    && g.occurrences == SumBy(ps, Occurrences)
    && TimesFrom(g, ps)
    && g.sameKind == SameKind(ps) && g.sameName == SameName(ps)
    && (g.cascade <==> exists p :: p in ps && p.cascade)
  }

  function Gather(g: Gathered, m: Problem, first: Problem): Gathered {
    Gathered(g.keys + [m.key], g.homes + {Home(m)}, g.items + [Item(m)], g.occurrences + m.occurrences,
             Earlier(g.firstSeen, m.firstSeen), if m.lastSeen > g.lastSeen then m.lastSeen else g.lastSeen,
             if m.firstSeen > g.maxFirst then m.firstSeen else g.maxFirst,
             if m.lastSeen > g.lastSeen then m.message else g.message,
             g.sameKind && m.kind == first.kind, g.sameName && m.title == first.title, g.cascade || m.cascade)
  }

  lemma NewestMessageStep(ps: seq<Problem>, i: nat)
    requires i < |ps|
    ensures NewestMessage(ps[..i + 1]) ==
            if ps[i].lastSeen > Latest(ZERO_TIME, Map(LastSeen, ps[..i])) then ps[i].message else NewestMessage(ps[..i])
  {
    PrefixStep(ps, i);
  }

  lemma TimesStep(g: Gathered, ps: seq<Problem>, i: nat)
    requires i < |ps| && TimesFrom(g, ps[..i])
    ensures TimesFrom(Gather(g, ps[i], ps[0]), ps[..i + 1])
  {
    MapStep(FirstSeen, ps, i);
    EarliestStep(Map(FirstSeen, ps[..i]), ps[i].firstSeen);
    MapStep(LastSeen, ps, i);
    LatestStep(ZERO_TIME, Map(LastSeen, ps[..i]), ps[i].lastSeen);
    LatestStep(ZERO_TIME, Map(FirstSeen, ps[..i]), ps[i].firstSeen);
    NewestMessageStep(ps, i);
  }

  lemma GatherStep(g: Gathered, ps: seq<Problem>, i: nat)
    requires i < |ps| && GatheredFrom(g, ps[..i])
    ensures GatheredFrom(Gather(g, ps[i], ps[0]), ps[..i + 1])
  {
    MapStep(Key, ps, i);
    MapStep(Item, ps, i);
    TimesStep(g, ps, i);
    SumByStep(ps, Occurrences, i);
    MembersStep(ps, i);
  }

  lemma MembersStep(ps: seq<Problem>, i: nat)
    requires i < |ps|
    ensures HomesOf(ps[..i + 1]) == HomesOf(ps[..i]) + {Home(ps[i])}
    ensures forall p :: p in ps[..i + 1] <==> p in ps[..i] || p == ps[i]
  {
    assert ps[..i + 1] == ps[..i] + [ps[i]];
    assert forall p :: p in ps[..i + 1] <==> p in ps[..i] || p == ps[i];
  }

  const NOTHING := Gathered([], {}, [], 0, ZERO_TIME, ZERO_TIME, ZERO_TIME, "", true, true, false)

  function GatherAll(ps: seq<Problem>, first: Problem): Gathered {
    if ps == [] then NOTHING else Gather(GatherAll(ps[..|ps| - 1], first), ps[|ps| - 1], first)
  }

  lemma {:induction false} GatherPrefix(ps: seq<Problem>, i: nat)
    requires ps != [] && i <= |ps|
    ensures GatheredFrom(GatherAll(ps[..i], ps[0]), ps[..i])
  {
    if i > 0 {
      GatherPrefix(ps, i - 1);
      GatherStep(GatherAll(ps[..i - 1], ps[0]), ps, i - 1);
      PrefixStep(ps, i - 1);
    }
  }

  lemma GatherAllStep(ps: seq<Problem>, i: nat)
    requires i < |ps|
    ensures GatherAll(ps[..i + 1], ps[0]) == Gather(GatherAll(ps[..i], ps[0]), ps[i], ps[0])
    ensures MergedTally(ps[..i + 1]) == AddRows(MergedTally(ps[..i]), ps[i].reasons)
    ensures Primaries(ps[..i + 1]) == Add(Primaries(ps[..i]), Primary(ps[i]), ps[i].occurrences)
  {
    PrefixStep(ps, i);
  }

  method GatherMembers(ps: seq<Problem>) returns (g: Gathered, counts: map<string, int>, primaries: map<string, int>)
    requires ps != []
    ensures g == GatherAll(ps, ps[0]) && counts == MergedTally(ps) && primaries == Primaries(ps)
  {
    counts, primaries := map[], map[];
    g := NOTHING;
    for i := 0 to |ps|
      invariant g == GatherAll(ps[..i], ps[0])
      invariant counts == MergedTally(ps[..i]) && primaries == Primaries(ps[..i])
    {
      GatherAllStep(ps, i);
      counts := AddReasons(counts, ps[i].reasons);
      primaries := Add(primaries, Primary(ps[i]), ps[i].occurrences);
      g := Gather(g, ps[i], ps[0]);
    }
    assert ps[..|ps|] == ps;
  }

  /** What the loop gathered is what the pattern row is made of. */
  lemma GatheredPattern(ps: seq<Problem>, now: Time)
    requires ps != []
    ensures var g := GatherAll(ps, ps[0]);
            PatternOf(ps, now).(title := "", why := NoPattern) ==
            Problem(PATTERN_PREFIX + Join(StableSort(g.keys, StringLess), ','), Pattern,
                    if g.sameKind then ps[0].kind else "", "",
                    StableSort(Listing(g.homes), StringLess), "", ps[0].tier, g.cascade, IdleAt(now, g.lastSeen), false,
                    ReasonTable(MergedTally(ps)), g.occurrences, g.firstSeen, g.lastSeen, g.message, "", NoPattern,
                    g.items)
    ensures ReasonTable(Primaries(ps)) != []
    ensures var g, n := GatherAll(ps, ps[0]), |Listing(HomesOf(ps))|;
            && g.homes == HomesOf(ps)
            && PatternOf(ps, now).title == TitleFor(g.sameName, ps[0].title, ReasonTable(Primaries(ps)), n)
            && PatternOf(ps, now).why == WhyFor(g.sameName, ps[0].title, g.firstSeen, g.maxFirst, n)
  {
    GatherPrefix(ps, |ps|);
    PrimariesThere(ps);
    assert ps[..|ps|] == ps;
  }

  /** `p` is the pattern row of `members`, for some member-ordered arrangement of them. */
  ghost predicate IsPatternOf(members: seq<Problem>, now: Time, p: Problem) {
    exists s :: Permutes(s, members) && Sorted(s, MemberBefore) && s != [] && p == PatternOf(s, now)
  }

  /** The member order behind a pattern row. */
  lemma MemberOrderOf(xs: seq<Problem>, now: Time, p: Problem) returns (s: seq<Problem>)
    requires IsPatternOf(xs, now, p)
    ensures s != [] && Permutes(s, xs) && Sorted(s, MemberBefore) && p == PatternOf(s, now)
  {
    s :| Permutes(s, xs) && Sorted(s, MemberBefore) && s != [] && p == PatternOf(s, now);
  }

  method MakePattern(members: seq<Problem>, now: Time) returns (p: Problem)
    requires members != [] && forall m :: m in members ==> Complete(m)
    ensures IsPatternOf(members, now, p)
  {
    MemberBeforeIsWeakOrder();
    var sorted := Sort(members, MemberBefore);
    PermutesMembers(sorted, members);
    var g, counts, primaries := GatherMembers(sorted);
    var sortedKeys := SortStrings(g.keys);
    var namespaces := SortStringSet(g.homes);
    var reasons := SortedReasons(counts);
    var main := SortedReasons(primaries);
    GatheredPattern(sorted, now);
    var title := TitleFor(g.sameName, sorted[0].title, main, |namespaces|);
    var why := WhyFor(g.sameName, sorted[0].title, g.firstSeen, g.maxFirst, |namespaces|);
    p := Problem(PATTERN_PREFIX + Join(sortedKeys, ','), Pattern, if g.sameKind then sorted[0].kind else "", title,
                 namespaces, "", sorted[0].tier, g.cascade, IdleAt(now, g.lastSeen), false, reasons, g.occurrences,
                 g.firstSeen, g.lastSeen, g.message, "", why, g.items);
  }

  lemma {:induction false} AddRowsTotal(counts: map<string, int>, rows: seq<ReasonCount>)
    ensures MapTotal(AddRows(counts, rows)) == MapTotal(counts) + SumBy(rows, CountOf)
  {
    if rows != [] {
      var front, r := rows[..|rows| - 1], rows[|rows| - 1];
      AddRowsTotal(counts, front);
      AddTotal(AddRows(counts, front), r.reason, r.count);
    }
  }

  ghost predicate Balanced(p: Problem) {
    SumBy(p.reasons, CountOf) == p.occurrences
  }

  lemma {:induction false} MergedTallyTotal(ps: seq<Problem>)
    requires forall p :: p in ps ==> Balanced(p)
    ensures MapTotal(MergedTally(ps)) == SumBy(ps, Occurrences)
  {
    if ps == [] {
      MapTotalEmpty<string>();
    } else {
      var front, p := ps[..|ps| - 1], ps[|ps| - 1];
      assert p in ps;
      MergedTallyTotal(front);
      AddRowsTotal(MergedTally(front), p.reasons);
    }
  }

  /** A pattern of rows whose reasons account for their occurrences accounts for all of theirs. */
  lemma PatternBalanced(ps: seq<Problem>, now: Time)
    requires ps != [] && forall p :: p in ps ==> Complete(p) && Balanced(p)
    ensures Balanced(PatternOf(ps, now))
  {
    MergedTallyTotal(ps);
    ReasonTableTotal(MergedTally(ps));
  }

  /** Re-aging a pattern whose members share a tier gives that tier again, zero times included. */
  lemma PatternTier(ps: seq<Problem>, now: Time)
    requires ps != [] && forall p :: p in ps ==> Complete(p) && p.tier == ps[0].tier == TierAt(now, p.firstSeen)
    ensures PatternOf(ps, now).tier == TierAt(now, PatternOf(ps, now).firstSeen)
    ensures Timed(PatternOf(ps, now), now) == PatternOf(ps, now)
  {
    EarliestIsMember(Map(FirstSeen, ps));
    var i :| 0 <= i < |ps| && Map(FirstSeen, ps)[i] == Earliest(Map(FirstSeen, ps));
    assert ps[i] in ps;
  }

  // ---- Ranking -------------------------------------------------------------

  function TierRank(t: Tier): int {
    match t
    case New => 0
    case Ongoing => 1
    case Chronic => 2
  }

  predicate RowBefore(a: Problem, b: Problem) {
    if a.tier != b.tier then TierRank(a.tier) < TierRank(b.tier)
    else if a.cascade != b.cascade then a.cascade
    else if a.idle != b.idle then !a.idle
    else if a.lastSeen != b.lastSeen then a.lastSeen > b.lastSeen
    else StringLess(a.key, b.key)
  }

  lemma RowBeforeIsWeakOrder()
    ensures WeakOrder(RowBefore)
  {
    StringLessTotal();
    forall x, y, z | !RowBefore(y, x) && !RowBefore(z, y) ensures !RowBefore(z, x) {
      assert x.key == y.key || StringLess(x.key, y.key) || StringLess(y.key, x.key);
      assert y.key == z.key || StringLess(y.key, z.key) || StringLess(z.key, y.key);
    }
  }

  /** Ranks the rows: newest tier first, then cascades, active rows, the latest, and keys for ties. */
  method SortProblems(ps: seq<Problem>) returns (r: seq<Problem>)
    ensures r == StableSort(ps, RowBefore)
    ensures Permutes(r, ps) && Sorted(r, RowBefore)
  {
    RowBeforeIsWeakOrder();
    r := StableSort(ps, RowBefore);
    StableSortPermutes(ps, RowBefore);
    StableSortSorted(ps, RowBefore);
  }
}
