/** Trimming evidence to a budget (rca.go): three binary searches find what trying one line less at a time
    would find. */
module Trimming {

  /** How much of the evidence a prompt shows: events, member warnings, log lines (-1: the logs as fetched). */
  datatype Selection = Selection(events: nat, members: nat, logs: int)

  /** How much evidence there is. */
  datatype Shape = Shape(events: nat, members: nat, hasLogs: bool, lines: nat)

  function Full(s: Shape): Selection {
    Selection(s.events, s.members, -1)
  }

  function Bottom(s: Shape): int {
    if s.hasLogs then 0 else -1
  }

  // ---- The trim order ------------------------------------------------------

  /** f(n), f(n - 1), ..., f(0). */
  function Down(n: int, f: nat -> Selection): seq<Selection>
    decreases n + 1
  {
    if n < 0 then [] else [f(n)] + Down(n - 1, f)
  }

  function FewerLogs(s: Shape): nat -> Selection {
    (l: nat) => Selection(s.events, s.members, l)
  }

  function FewerMembers(s: Shape): nat -> Selection {
    (m: nat) => Selection(s.events, m, Bottom(s))
  }

  function FewerEvents(s: Shape): nat -> Selection {
    (n: nat) => Selection(n, 0, Bottom(s))
  }

  function LogsPart(s: Shape): seq<Selection> {
    if s.hasLogs then Down(s.lines, FewerLogs(s)) else []
  }

  function MembersPart(s: Shape): seq<Selection> {
    Down(s.members - 1, FewerMembers(s))
  }

  function EventsPart(s: Shape): seq<Selection> {
    Down(s.events - 1, FewerEvents(s))
  }

  /** The documented trim order, one line at a time: log lines first, then member warnings, then the
      object's oldest events. */
  function TrimOrder(s: Shape): (order: seq<Selection>)
    ensures order != []
  {
    [Full(s)] + (LogsPart(s) + (MembersPart(s) + EventsPart(s)))
  }

  /** The plain way to trim: try the selections in order and stop at the first that fits, or at the last. */
  function FirstFit(order: seq<Selection>, fits: Selection -> bool): Selection
    requires order != []
  {
    if |order| == 1 || fits(order[0]) then order[0] else FirstFit(order[1..], fits)
  }

  lemma {:induction false} FirstFitSkips(xs: seq<Selection>, ys: seq<Selection>, fits: Selection -> bool)
    requires ys != [] && forall i :: 0 <= i < |xs| ==> !fits(xs[i])
    ensures FirstFit(xs + ys, fits) == FirstFit(ys, fits)
  {
    if xs == [] {
      assert xs + ys == ys;
    } else {
      FirstFitSkips(xs[1..], ys, fits);
      assert (xs + ys)[1..] == xs[1..] + ys;
    }
  }

  lemma {:induction false} DownMembers(n: int, f: nat -> Selection)
    ensures |Down(n, f)| == if n < 0 then 0 else n + 1
    ensures forall i :: 0 <= i < |Down(n, f)| ==> Down(n, f)[i] == f(n - i)
    decreases n + 1
  {
    if n >= 0 {
      DownMembers(n - 1, f);
    }
  }

  /** In a segment the first fit is the largest number that fits. */
  lemma {:induction false} DownFirstFit(n: int, f: nat -> Selection, ys: seq<Selection>, fits: Selection -> bool,
                                        k: nat)
    requires k <= n && fits(f(k)) && forall i: nat :: k < i <= n ==> !fits(f(i))
    ensures FirstFit(Down(n, f) + ys, fits) == f(k)
    decreases n
  {
    assert (Down(n, f) + ys)[0] == f(n) && (Down(n, f) + ys)[1..] == Down(n - 1, f) + ys;
    if k < n {
      DownFirstFit(n - 1, f, ys, fits, k);
    }
  }

  /** When nothing of the last segment fits, its last selection is taken. */
  lemma {:induction false} DownLast(n: nat, f: nat -> Selection, fits: Selection -> bool)
    requires forall i: nat :: i <= n ==> !fits(f(i))
    ensures FirstFit(Down(n, f), fits) == f(0)
  {
    if n > 0 {
      DownLast(n - 1, f, fits);
      assert Down(n, f)[1..] == Down(n - 1, f);
    }
  }

  lemma DownRejected(n: int, f: nat -> Selection, ys: seq<Selection>, fits: Selection -> bool)
    requires ys != [] && forall i: nat :: i <= n ==> !fits(f(i))
    ensures FirstFit(Down(n, f) + ys, fits) == FirstFit(ys, fits)
  {
    DownMembers(n, f);
    FirstFitSkips(Down(n, f), ys, fits);
  }

  /** The first fit fits exactly when anything in the order does. */
  lemma {:induction false} FirstFitFits(order: seq<Selection>, fits: Selection -> bool)
    requires order != []
    ensures FirstFit(order, fits) in order
    ensures fits(FirstFit(order, fits)) <==> exists i :: 0 <= i < |order| && fits(order[i])
    decreases |order|
  {
    if |order| > 1 && !fits(order[0]) {
      FirstFitFits(order[1..], fits);
      if i :| 0 <= i < |order| && fits(order[i]) {
        assert order[1..][i - 1] == order[i];
      }
    }
  }

  // ---- Searching -----------------------------------------------------------

  /** What holds at a number holds at every smaller one. */
  ghost predicate DownClosed(total: nat, ok: nat -> bool) {
    forall i: nat, j: nat :: i < j <= total && ok(j) ==> ok(i)
  }

  lemma DownClosedByStep(total: nat, ok: nat -> bool)
    requires forall i: nat :: i < total && ok(i + 1) ==> ok(i)
    ensures DownClosed(total, ok)
  {
    forall i: nat, j: nat | i < j <= total && ok(j) ensures ok(i) {
      var k := j;
      while k > i
        invariant i <= k <= j && ok(k)
      {
        k := k - 1;
      }
    }
  }

  /** n is the largest number in [0, total] for which ok holds, or 0 when it holds for none. */
  ghost predicate IsMost(total: nat, ok: nat -> bool, n: nat) {
    && n <= total
    && (forall j: nat :: n < j <= total ==> !ok(j))
    && (ok(n) || n == 0)
  }

  /** sort.Search's binary search for the first failure, less one. */
  method Most(total: nat, ok: nat -> bool) returns (n: nat)
    requires DownClosed(total, ok)
    ensures IsMost(total, ok, n)
  {
    var i, j := 0, total + 1;
    while i < j
      invariant 0 <= i <= j <= total + 1
      invariant forall k: nat :: k < i ==> ok(k)
      invariant forall k: nat :: j <= k <= total ==> !ok(k)
    {
      var h := (i + j) / 2;
      if ok(h) {
        i := h + 1;
      } else {
        j := h;
      }
    }
    n := if i > 0 then i - 1 else 0;
  }

  // ---- Trimming ------------------------------------------------------------

  /** Along each segment of the trim order, what fits with a line more fits with a line less. */
  ghost predicate Steady(s: Shape, fits: Selection -> bool) {
    && (forall l: nat :: s.hasLogs && l < s.lines && fits(Selection(s.events, s.members, l + 1)) ==>
        fits(Selection(s.events, s.members, l)))
    && (forall m: nat :: m + 1 < s.members && fits(Selection(s.events, m + 1, Bottom(s))) ==>
        fits(Selection(s.events, m, Bottom(s))))
    && (forall n: nat :: n + 1 < s.events && fits(Selection(n + 1, 0, Bottom(s))) ==> fits(Selection(n, 0, Bottom(s))))
  }

  function LogsOk(s: Shape, fits: Selection -> bool): nat -> bool {
    (l: nat) => fits(Selection(s.events, s.members, l))
  }

  function MembersOk(s: Shape, fits: Selection -> bool): nat -> bool {
    (m: nat) => fits(Selection(s.events, m, Bottom(s)))
  }

  function EventsOk(s: Shape, fits: Selection -> bool): nat -> bool {
    (n: nat) => fits(Selection(n, 0, Bottom(s)))
  }

  /** The three searches give what trimming one line at a time gives. */
  method Trim(s: Shape, fits: Selection -> bool) returns (c: Selection)
    requires Steady(s, fits) && !fits(Full(s))
    ensures c == FirstFit(TrimOrder(s), fits)
  {
    var nLog: int := -1;
    if s.hasLogs {
      DownClosedByStep(s.lines, LogsOk(s, fits));
      nLog := Most(s.lines, LogsOk(s, fits));
      if fits(Selection(s.events, s.members, nLog)) {
        LogsFit(s, fits, nLog);
        return Selection(s.events, s.members, nLog);
      }
      forall l: nat | l <= s.lines ensures !fits(Selection(s.events, s.members, l)) {
        assert !LogsOk(s, fits)(l);
      }
    }
    assert nLog == Bottom(s) && LogsRejected(s, fits);
    DownClosedByStep(s.members, MembersOk(s, fits));
    var nMem := Most(s.members, MembersOk(s, fits));
    if fits(Selection(s.events, nMem, nLog)) {
      MembersFit(s, fits, nMem);
      return Selection(s.events, nMem, nLog);
    }
    assert nMem == 0;
    DownClosedByStep(s.events, EventsOk(s, fits));
    var nEv := Most(s.events, EventsOk(s, fits));
    EventsFit(s, fits, nEv);
    return Selection(nEv, nMem, nLog);
  }

  /** Neither the full evidence nor any number of log lines makes the rest fit. */
  ghost predicate LogsRejected(s: Shape, fits: Selection -> bool) {
    && !fits(Full(s)) && !fits(Selection(s.events, s.members, Bottom(s)))
    && (s.hasLogs ==> forall l: nat :: l <= s.lines ==> !fits(Selection(s.events, s.members, l)))
  }

  lemma FullSkipped(s: Shape, fits: Selection -> bool)
    requires !fits(Full(s)) && LogsPart(s) + (MembersPart(s) + EventsPart(s)) != []
    ensures FirstFit(TrimOrder(s), fits) == FirstFit(LogsPart(s) + (MembersPart(s) + EventsPart(s)), fits)
  {
    FirstFitSkips([Full(s)], LogsPart(s) + (MembersPart(s) + EventsPart(s)), fits);
  }

  lemma LogsFit(s: Shape, fits: Selection -> bool, l: nat)
    requires !fits(Full(s)) && s.hasLogs && IsMost(s.lines, LogsOk(s, fits), l)
    requires fits(Selection(s.events, s.members, l))
    ensures FirstFit(TrimOrder(s), fits) == Selection(s.events, s.members, l)
  {
    FullSkipped(s, fits);
    forall i: nat | l < i <= s.lines ensures !fits(FewerLogs(s)(i)) {
      assert !LogsOk(s, fits)(i);
    }
    DownFirstFit(s.lines, FewerLogs(s), MembersPart(s) + EventsPart(s), fits, l);
  }

  lemma LogsSkipped(s: Shape, fits: Selection -> bool)
    requires LogsRejected(s, fits) && MembersPart(s) + EventsPart(s) != []
    ensures FirstFit(TrimOrder(s), fits) == FirstFit(MembersPart(s) + EventsPart(s), fits)
  {
    FullSkipped(s, fits);
    if s.hasLogs {
      DownRejected(s.lines, FewerLogs(s), MembersPart(s) + EventsPart(s), fits);
    } else {
      assert LogsPart(s) + (MembersPart(s) + EventsPart(s)) == MembersPart(s) + EventsPart(s);
    }
  }

  lemma MembersFit(s: Shape, fits: Selection -> bool, m: nat)
    requires LogsRejected(s, fits) && IsMost(s.members, MembersOk(s, fits), m) && m < s.members
    requires fits(Selection(s.events, m, Bottom(s)))
    ensures FirstFit(TrimOrder(s), fits) == Selection(s.events, m, Bottom(s))
  {
    LogsSkipped(s, fits);
    forall i: nat | m < i <= s.members - 1 ensures !fits(FewerMembers(s)(i)) {
      assert !MembersOk(s, fits)(i);
    }
    DownFirstFit(s.members - 1, FewerMembers(s), EventsPart(s), fits, m);
  }

  lemma MembersSkipped(s: Shape, fits: Selection -> bool)
    requires LogsRejected(s, fits) && s.events > 0
    requires forall m: nat :: m <= s.members ==> !MembersOk(s, fits)(m)
    ensures FirstFit(TrimOrder(s), fits) == FirstFit(EventsPart(s), fits)
  {
    LogsSkipped(s, fits);
    forall i: nat | i <= s.members - 1 ensures !fits(FewerMembers(s)(i)) {
      assert !MembersOk(s, fits)(i);
    }
    DownRejected(s.members - 1, FewerMembers(s), EventsPart(s), fits);
  }

  lemma EventsFit(s: Shape, fits: Selection -> bool, n: nat)
    requires LogsRejected(s, fits) && IsMost(s.events, EventsOk(s, fits), n)
    requires forall m: nat :: m <= s.members ==> !MembersOk(s, fits)(m)
    ensures FirstFit(TrimOrder(s), fits) == Selection(n, 0, Bottom(s))
  {
    assert !MembersOk(s, fits)(0);
    forall i: nat | n < i <= s.events - 1 ensures !fits(FewerEvents(s)(i)) {
      assert !EventsOk(s, fits)(i);
    }
    if s.events > 0 {
      MembersSkipped(s, fits);
      if fits(FewerEvents(s)(n)) {
        assert n < s.events;
        DownFirstFit(s.events - 1, FewerEvents(s), [], fits, n);
        assert EventsPart(s) + [] == EventsPart(s);
      } else {
        DownLast(s.events - 1, FewerEvents(s), fits);
      }
    } else {
      NothingLeft(s, fits);
    }
  }

  /** Without events to trim the order ends with the members, and without those with the logs. */
  lemma NothingLeft(s: Shape, fits: Selection -> bool)
    requires LogsRejected(s, fits) && s.events == 0
    requires forall m: nat :: m <= s.members ==> !MembersOk(s, fits)(m)
    ensures FirstFit(TrimOrder(s), fits) == Selection(0, 0, Bottom(s))
  {
    assert EventsPart(s) == [];
    if s.members > 0 {
      LogsSkipped(s, fits);
      forall i: nat | i <= s.members - 1 ensures !fits(FewerMembers(s)(i)) {
        assert !MembersOk(s, fits)(i);
      }
      assert MembersPart(s) + EventsPart(s) == MembersPart(s);
      DownLast(s.members - 1, FewerMembers(s), fits);
    } else {
      assert MembersPart(s) == [];
      assert LogsPart(s) + (MembersPart(s) + EventsPart(s)) == LogsPart(s);
      if s.hasLogs {
        FullSkipped(s, fits);
        DownLast(s.lines, FewerLogs(s), fits);
      }
    }
  }

  lemma DownFrom(n: int, f: nat -> Selection, c: Selection)
    requires c in Down(n, f)
    ensures exists i: nat :: i <= n && c == f(i)
  {
    DownMembers(n, f);
    var k :| 0 <= k < |Down(n, f)| && Down(n, f)[k] == c;
    assert c == f(n - k);
  }

  /** Trimming never shows more than there is. */
  lemma OrderBounded(s: Shape, c: Selection)
    requires c in TrimOrder(s)
    ensures c.events <= s.events && c.members <= s.members
  {
    if c in LogsPart(s) {
      DownFrom(s.lines, FewerLogs(s), c);
    } else if c in MembersPart(s) {
      DownFrom(s.members - 1, FewerMembers(s), c);
    } else if c in EventsPart(s) {
      DownFrom(s.events - 1, FewerEvents(s), c);
    }
  }

  // ---- What trimming guarantees --------------------------------------------

  lemma {:induction false} LastOfTrimOrder(s: Shape)
    ensures TrimOrder(s)[|TrimOrder(s)| - 1] == Selection(0, 0, Bottom(s))
  {
    DownMembers(s.events - 1, FewerEvents(s));
    DownMembers(s.members - 1, FewerMembers(s));
    DownMembers(s.lines, FewerLogs(s));
  }

  /** Whenever the fully trimmed evidence fits, so does the result. */
  lemma FitsWhenTrimmedFits(s: Shape, fits: Selection -> bool)
    requires fits(Selection(0, 0, Bottom(s)))
    ensures fits(FirstFit(TrimOrder(s), fits))
  {
    LastOfTrimOrder(s);
    FirstFitFits(TrimOrder(s), fits);
  }

  ghost function PlaceOf(order: seq<Selection>, fits: Selection -> bool): (k: nat)
    requires order != []
    ensures k < |order| && order[k] == FirstFit(order, fits)
    ensures forall i :: 0 <= i < k ==> !fits(order[i])
    ensures k < |order| - 1 ==> fits(order[k])
  {
    if |order| == 1 || fits(order[0]) then 0 else PlaceOf(order[1..], fits) + 1
  }

  /** A larger budget never keeps less: its result comes no later in the trim order. */
  lemma LargerBudgetKeepsMore(order: seq<Selection>, fits: Selection -> bool, more: Selection -> bool)
    requires order != [] && forall c :: fits(c) ==> more(c)
    ensures PlaceOf(order, more) <= PlaceOf(order, fits)
  {
  }
}
