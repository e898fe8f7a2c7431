/** How trimming compares with the best selection there is (rca.go): what it gives is not always the
    lexicographically largest that fits, and exactly when it is. */
module TrimLaws {
  import opened Trimming

  predicate InShape(s: Shape, c: Selection) {
    c.events <= s.events && c.members <= s.members && -1 <= c.logs <= s.lines && (!s.hasLogs ==> c.logs == -1)
  }

  /** The logs as fetched count for more than any number of lines. */
  function LogRank(s: Shape, logs: int): int {
    if logs < 0 then s.lines + 1 else logs
  }

  /** More events; or as many and more members; or as many of both and more logs. */
  predicate Richer(s: Shape, a: Selection, b: Selection) {
    a.events > b.events
    || (a.events == b.events && a.members > b.members)
    || (a.events == b.events && a.members == b.members && LogRank(s, a.logs) > LogRank(s, b.logs))
  }

  ghost predicate IsRichest(s: Shape, fits: Selection -> bool, r: Selection) {
    forall c :: InShape(s, c) && fits(c) ==> !Richer(s, c, r)
  }

  /** What fits with a line more fits with a line less, below the full number of each kind; the logs as
      fetched, and the full numbers, which come without a note, are apart. */
  ghost predicate Monotone(s: Shape, fits: Selection -> bool) {
    && (forall n: nat, m: nat, l: nat ::
          n <= s.events && m <= s.members && s.hasLogs && l < s.lines && fits(Selection(n, m, l + 1)) ==>
            fits(Selection(n, m, l)))
    && (forall n: nat, m: nat, l: int ::
          n <= s.events && m + 1 < s.members && fits(Selection(n, m + 1, l)) ==> fits(Selection(n, m, l)))
    && (forall n: nat, m: nat, l: int ::
          n + 1 < s.events && m <= s.members && fits(Selection(n + 1, m, l)) ==> fits(Selection(n, m, l)))
  }

  lemma MonotoneIsSteady(s: Shape, fits: Selection -> bool)
    requires Monotone(s, fits)
    ensures Steady(s, fits)
  {
  }

  lemma {:induction false} FewerLogLines(s: Shape, fits: Selection -> bool, n: nat, m: nat, l: nat, k: nat)
    requires Monotone(s, fits) && n <= s.events && m <= s.members && s.hasLogs && k <= l <= s.lines
        && fits(Selection(n, m, l))
    ensures fits(Selection(n, m, k))
    decreases l
  {
    if k < l {
      FewerLogLines(s, fits, n, m, l - 1, k);
    }
  }

  lemma {:induction false} FewerMemberLines(s: Shape, fits: Selection -> bool, n: nat, m: nat, l: int, k: nat)
    requires Monotone(s, fits) && n <= s.events && k <= m < s.members && fits(Selection(n, m, l))
    ensures fits(Selection(n, k, l))
    decreases m
  {
    if k < m {
      FewerMemberLines(s, fits, n, m - 1, l, k);
    }
  }

  lemma {:induction false} FewerEventLines(s: Shape, fits: Selection -> bool, n: nat, m: nat, l: int, k: nat)
    requires Monotone(s, fits) && k <= n < s.events && m <= s.members && fits(Selection(n, m, l))
    ensures fits(Selection(k, m, l))
    decreases n
  {
    if k < n {
      FewerEventLines(s, fits, n - 1, m, l, k);
    }
  }

  // ---- Where trimming stops ------------------------------------------------

  ghost function Largest(total: nat, ok: nat -> bool): (n: nat)
    requires DownClosed(total, ok)
    ensures IsMost(total, ok, n)
    decreases total
  {
    if ok(total) || total == 0 then total else Largest(total - 1, ok)
  }

  datatype Stage = Untrimmed | LogsTrimmed | MembersTrimmed | EventsTrimmed

  /** The result of trimming, by how far it had to go. */
  ghost predicate StopsAt(s: Shape, fits: Selection -> bool, r: Selection, stage: Stage) {
    match stage
    case Untrimmed => r == Full(s) && fits(r)
    case LogsTrimmed =>
      !fits(Full(s)) && s.hasLogs && r.logs >= 0 && IsMost(s.lines, LogsOk(s, fits), r.logs)
      && r == Selection(s.events, s.members, r.logs) && fits(r)
    case MembersTrimmed =>
      LogsRejected(s, fits) && r.members < s.members && IsMost(s.members, MembersOk(s, fits), r.members)
      && r == Selection(s.events, r.members, Bottom(s)) && fits(r)
    case EventsTrimmed =>
      LogsRejected(s, fits) && (forall m: nat :: m <= s.members ==> !MembersOk(s, fits)(m))
      && IsMost(s.events, EventsOk(s, fits), r.events) && r == Selection(r.events, 0, Bottom(s))
  }

  lemma TrimStops(s: Shape, fits: Selection -> bool) returns (stage: Stage)
    requires Steady(s, fits)
    ensures StopsAt(s, fits, FirstFit(TrimOrder(s), fits), stage)
  {
    if fits(Full(s)) {
      return Untrimmed;
    }
    if s.hasLogs {
      DownClosedByStep(s.lines, LogsOk(s, fits));
      var l := Largest(s.lines, LogsOk(s, fits));
      if fits(Selection(s.events, s.members, l)) {
        LogsFit(s, fits, l);
        return LogsTrimmed;
      }
      forall k: nat | k <= s.lines ensures !fits(Selection(s.events, s.members, k)) {
        assert !LogsOk(s, fits)(k);
      }
    }
    stage := TrimStopsLater(s, fits);
  }

  lemma TrimStopsLater(s: Shape, fits: Selection -> bool) returns (stage: Stage)
    requires Steady(s, fits) && LogsRejected(s, fits)
    ensures StopsAt(s, fits, FirstFit(TrimOrder(s), fits), stage)
  {
    DownClosedByStep(s.members, MembersOk(s, fits));
    var m := Largest(s.members, MembersOk(s, fits));
    if fits(Selection(s.events, m, Bottom(s))) {
      MembersFit(s, fits, m);
      return MembersTrimmed;
    }
    forall k: nat | k <= s.members ensures !MembersOk(s, fits)(k) {
    }
    DownClosedByStep(s.events, EventsOk(s, fits));
    var n := Largest(s.events, EventsOk(s, fits));
    EventsFit(s, fits, n);
    stage := EventsTrimmed;
  }

  // ---- When it is the best -------------------------------------------------

  /** One thing put back into a trimmed selection: a log line, the logs as fetched, a member, all the members,
      or all the events. */
  function PutBack(s: Shape, r: Selection): set<Selection> {
    {Selection(r.events, r.members, 1), Selection(r.events, r.members, -1), Selection(r.events, 1, Bottom(s)),
     Selection(r.events, s.members, Bottom(s)), Selection(r.events, s.members, -1), Selection(s.events, 0, -1)}
  }

  /** Nothing richer that can be made by putting one thing back fits. */
  ghost predicate NothingPutBack(s: Shape, fits: Selection -> bool, r: Selection) {
    forall c :: c in PutBack(s, r) && InShape(s, c) && Richer(s, c, r) ==> !fits(c)
  }

  lemma LogsTrimmedRichest(s: Shape, fits: Selection -> bool, r: Selection)
    requires StopsAt(s, fits, r, LogsTrimmed)
    ensures IsRichest(s, fits, r)
  {
    forall c | InShape(s, c) && fits(c) ensures !Richer(s, c, r) {
      if c.events == s.events && c.members == s.members && c.logs >= 0 {
        assert LogsOk(s, fits)(c.logs);
      }
    }
  }

  lemma MembersTrimmedRichest(s: Shape, fits: Selection -> bool, r: Selection, c: Selection)
    requires Monotone(s, fits) && StopsAt(s, fits, r, MembersTrimmed) && NothingPutBack(s, fits, r)
    requires InShape(s, c) && fits(c)
    ensures !Richer(s, c, r)
  {
    assert Selection(r.events, r.members, 1) in PutBack(s, r);
    assert Selection(r.events, r.members, -1) in PutBack(s, r);
    if c.events == s.events && r.members <= c.members < s.members {
      if !s.hasLogs {
        assert MembersOk(s, fits)(c.members);
      } else if c.logs < 0 {
        FewerMemberLines(s, fits, s.events, c.members, -1, r.members);
      } else {
        FewerLogLines(s, fits, s.events, c.members, c.logs, 0);
        assert MembersOk(s, fits)(c.members);
        if c.logs > 0 {
          FewerLogLines(s, fits, s.events, c.members, c.logs, 1);
        }
      }
    }
  }

  /** With all the events a selection fits only with the logs as fetched, and then also without members. */
  lemma AllEventsFit(s: Shape, fits: Selection -> bool, c: Selection)
    requires Monotone(s, fits) && LogsRejected(s, fits) && (forall m: nat :: m <= s.members ==> !MembersOk(s, fits)(m))
    requires InShape(s, c) && c.events == s.events && (c.logs < 0 && s.hasLogs ==> !fits(Selection(s.events, 0, -1)))
    ensures !fits(c)
  {
    var d := Selection(s.events, c.members, Bottom(s));
    assert fits(d) == MembersOk(s, fits)(c.members);
    if fits(c) && c.members < s.members {
      if c.logs < 0 {
        FewerMemberLines(s, fits, s.events, c.members, -1, 0);
      } else {
        FewerLogLines(s, fits, s.events, c.members, c.logs, 0);
      }
    }
  }

  /** With as many events, nothing more fits either. */
  lemma SameEventsFit(s: Shape, fits: Selection -> bool, r: Selection, c: Selection)
    requires Monotone(s, fits) && r == Selection(r.events, 0, Bottom(s)) && r.events < s.events
        && NothingPutBack(s, fits, r)
    requires InShape(s, c) && c.events == r.events && c.members > 0
    ensures !fits(c)
  {
    assert Selection(r.events, 1, Bottom(s)) in PutBack(s, r) && Selection(r.events, 0, -1) in PutBack(s, r);
    assert Selection(r.events, s.members, Bottom(s)) in PutBack(s, r)
        && Selection(r.events, s.members, -1) in PutBack(s, r);
    if fits(c) {
      if c.logs >= 0 {
        FewerLogLines(s, fits, c.events, c.members, c.logs, 0);
      }
      var l := if c.logs >= 0 then 0 else -1;
      if c.members < s.members {
        FewerMemberLines(s, fits, c.events, c.members, l, if l == Bottom(s) then 1 else 0);
      }
    }
  }

  lemma EventsTrimmedRichest(s: Shape, fits: Selection -> bool, r: Selection, c: Selection)
    requires Monotone(s, fits) && StopsAt(s, fits, r, EventsTrimmed) && r.events < s.events
        && NothingPutBack(s, fits, r)
    requires InShape(s, c) && fits(c)
    ensures !Richer(s, c, r)
  {
    assert Selection(s.events, 0, -1) in PutBack(s, r) && Selection(r.events, 0, -1) in PutBack(s, r);
    assert Selection(r.events, 0, 1) in PutBack(s, r);
    if c.events == s.events {
      AllEventsFit(s, fits, c);
    } else if c.events >= r.events {
      FewerEventLines(s, fits, c.events, c.members, c.logs, r.events);
      if c.members > 0 {
        SameEventsFit(s, fits, r, Selection(r.events, c.members, c.logs));
      } else if c.logs > 0 {
        FewerLogLines(s, fits, r.events, 0, c.logs, 1);
      } else if c.logs == Bottom(s) {
        assert EventsOk(s, fits)(c.events);
      }
    }
  }

  /** Trimming that fits gives the lexicographically largest selection that fits exactly when nothing could be
      put back; after log lines alone it always does. */
  lemma RichestExactly(s: Shape, fits: Selection -> bool)
    requires Monotone(s, fits) && fits(FirstFit(TrimOrder(s), fits))
    ensures var r := FirstFit(TrimOrder(s), fits);
            && (IsRichest(s, fits, r) <==> NothingPutBack(s, fits, r))
            && (r.events == s.events && r.members == s.members ==> IsRichest(s, fits, r))
  {
    MonotoneIsSteady(s, fits);
    var r := FirstFit(TrimOrder(s), fits);
    var stage := TrimStops(s, fits);
    match stage
    case Untrimmed =>
    case LogsTrimmed => LogsTrimmedRichest(s, fits, r);
    case MembersTrimmed =>
      if NothingPutBack(s, fits, r) {
        forall c | InShape(s, c) && fits(c) ensures !Richer(s, c, r) {
          MembersTrimmedRichest(s, fits, r, c);
        }
      }
    case EventsTrimmed =>
      assert !MembersOk(s, fits)(0);
      if NothingPutBack(s, fits, r) {
        forall c | InShape(s, c) && fits(c) ensures !Richer(s, c, r) {
          EventsTrimmedRichest(s, fits, r, c);
        }
      }
  }

  // ---- By the guards of the code -------------------------------------------

  /** Unless neither the full evidence nor any number of log lines fits, the result is the best. */
  lemma RichestUnlessRejected(s: Shape, fits: Selection -> bool)
    requires Monotone(s, fits) && !LogsRejected(s, fits)
    ensures IsRichest(s, fits, FirstFit(TrimOrder(s), fits))
  {
    MonotoneIsSteady(s, fits);
    var r := FirstFit(TrimOrder(s), fits);
    var stage := TrimStops(s, fits);
    if stage == LogsTrimmed {
      LogsTrimmedRichest(s, fits, r);
    }
  }

  /** When the search over members finds m, the result is the best exactly when neither a log line nor the logs
      as fetched fit beside those m. */
  lemma RichestByMembers(s: Shape, fits: Selection -> bool, m: nat)
    requires Monotone(s, fits) && LogsRejected(s, fits)
    requires IsMost(s.members, MembersOk(s, fits), m) && MembersOk(s, fits)(m)
    ensures FirstFit(TrimOrder(s), fits) == Selection(s.events, m, Bottom(s))
    ensures IsRichest(s, fits, FirstFit(TrimOrder(s), fits)) <==>
            !(s.hasLogs && (fits(Selection(s.events, m, -1)) || (s.lines > 0 && fits(Selection(s.events, m, 1)))))
  {
    var r := Selection(s.events, m, Bottom(s));
    assert m < s.members;
    MembersFit(s, fits, m);
    RichestExactly(s, fits);
    assert PutBack(s, r) == {Selection(s.events, m, 1), Selection(s.events, m, -1), Selection(s.events, 1, Bottom(s)),
                             Selection(s.events, s.members, Bottom(s)), Full(s), Selection(s.events, 0, -1)};
    assert m == 0 ==> !MembersOk(s, fits)(1);
  }

  /** When no number of members fits and the search over events finds n, the result is the best exactly when
      nothing put back beside those n fits. */
  lemma RichestByEvents(s: Shape, fits: Selection -> bool, n: nat)
    requires Monotone(s, fits) && LogsRejected(s, fits) && forall m: nat :: m <= s.members ==> !MembersOk(s, fits)(m)
    requires IsMost(s.events, EventsOk(s, fits), n)
    ensures FirstFit(TrimOrder(s), fits) == Selection(n, 0, Bottom(s))
    ensures EventsOk(s, fits)(n) ==>
              (IsRichest(s, fits, FirstFit(TrimOrder(s), fits)) <==>
                  NothingPutBack(s, fits, Selection(n, 0, Bottom(s))))
  {
    EventsFit(s, fits, n);
    if EventsOk(s, fits)(n) {
      RichestExactly(s, fits);
    }
  }
}
