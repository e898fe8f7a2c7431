/** What a pattern says of itself (makePattern in problems.go): its title lists the main reasons, and the sentence
    saying why its members are one row is true exactly under these conditions. */
module PatternTexts {
  import opened Clock
  import opened Sequences
  import opened Tables
  import opened UnionFind
  import opened Problems
  import opened Patterns

  // ---- The main reasons ----------------------------------------------------

  ghost predicate HasPrimary(ps: seq<Problem>, r: string) {
    exists p :: p in ps && Primary(p) == r
  }

  lemma {:induction false} PrimariesAre(ps: seq<Problem>, r: string)
    ensures r in Primaries(ps) <==> HasPrimary(ps, r)
  {
    if ps != [] {
      var front, p := ps[..|ps| - 1], ps[|ps| - 1];
      PrimariesAre(front, r);
      assert forall q :: q in ps <==> q in front || q == p;
    }
  }

  ghost predicate OneReason(ps: seq<Problem>) {
    forall p, q :: p in ps && q in ps ==> Primary(p) == Primary(q)
  }

  lemma OneKey<K(!new)>(keys: set<K>)
    requires keys != {}
    ensures |Listing(keys)| == 1 <==> forall a, b :: a in keys && b in keys ==> a == b
  {
    var ks := Listing(keys);
    var k :| k in keys;
    assert k in ks;
    if |ks| > 1 {
      assert ks[0] != ks[1] && ks[0] in ks && ks[1] in ks;
    } else {
      assert forall a :: a in keys ==> a in ks;
    }
  }

  /** The title names one reason, and no more, exactly when the members share it. */
  lemma OneReasonExactly(ps: seq<Problem>)
    requires ps != []
    ensures |ReasonTable(Primaries(ps))| == 1 <==> OneReason(ps)
  {
    var keys := Primaries(ps).Keys;
    forall r ensures r in keys <==> HasPrimary(ps, r) {
      PrimariesAre(ps, r);
    }
    assert ps[0] in ps && HasPrimary(ps, Primary(ps[0]));
    ReasonTableTotal(Primaries(ps));
    OneKey(keys);
    if forall a, b :: a in keys && b in keys ==> a == b {
      forall p, q | p in ps && q in ps ensures Primary(p) == Primary(q) {
        assert HasPrimary(ps, Primary(p)) && HasPrimary(ps, Primary(q));
      }
    }
    if OneReason(ps) {
      forall a, b | a in keys && b in keys ensures a == b {
        assert HasPrimary(ps, a) && HasPrimary(ps, b);
      }
    }
  }

  // ---- The sentence --------------------------------------------------------

  predicate SaysTogether(w: Why) {
    w.SameSecond? || w.Within?
  }

  predicate SaysSameReason(w: Why) {
    w.SameWorkload? || w.SameReason?
  }

  ghost predicate AllWithin(ps: seq<Problem>, d: int) {
    forall p, q :: p in ps && q in ps ==> p.firstSeen - q.firstSeen <= d
  }

  ghost predicate Known(ps: seq<Problem>) {
    forall p :: p in ps ==> p.firstSeen > ZERO_TIME
  }

  lemma StartsMapped(ps: seq<Problem>, t: Time)
    ensures t in Map(FirstSeen, ps) <==> exists p :: p in ps && p.firstSeen == t
  {
    var ts := Map(FirstSeen, ps);
    if t in ts {
      var k :| 0 <= k < |ts| && ts[k] == t;
      assert ps[k] in ps;
    }
    if p :| p in ps && p.firstSeen == t {
      var k :| 0 <= k < |ps| && ps[k] == p;
      assert ts[k] == t;
    }
  }

  /** The earliest and latest start of a pattern's members are starts of members, and with known starts they
      are the ends of the range. */
  lemma Ends(ps: seq<Problem>)
    requires ps != [] && forall p :: p in ps ==> p.firstSeen >= ZERO_TIME
    ensures var lo, hi := Earliest(Map(FirstSeen, ps)), Latest(ZERO_TIME, Map(FirstSeen, ps));
            && (exists p :: p in ps && p.firstSeen == lo) && (exists p :: p in ps && p.firstSeen == hi)
            && (forall p :: p in ps ==> p.firstSeen <= hi)
            && (Known(ps) ==> forall p :: p in ps ==> lo <= p.firstSeen)
  {
    var ts := Map(FirstSeen, ps);
    EarliestIsMember(ts);
    LatestIsMax(ts);
    assert ps[0] in ps && ps[0].firstSeen in ts by {
      StartsMapped(ps, ps[0].firstSeen);
    }
    StartsMapped(ps, Earliest(ts));
    StartsMapped(ps, Latest(ZERO_TIME, ts));
    forall p | p in ps ensures p.firstSeen in ts {
      StartsMapped(ps, p.firstSeen);
    }
    if Known(ps) {
      forall t | t in ts ensures t != ZERO_TIME {
        StartsMapped(ps, t);
      }
    }
  }

  /** With known starts, the sentence speaks of the clock exactly when all members were first seen within the
      window, and of one second exactly when they were within one. */
  lemma TogetherExactly(ps: seq<Problem>)
    requires ps != [] && Known(ps)
    ensures SaysTogether(PatternWhy(ps)) <==> AllWithin(ps, PATTERN_START_WINDOW)
    ensures PatternWhy(ps).SameSecond? <==> AllWithin(ps, SECOND - 1)
  {
    Ends(ps);
    var lo, hi := Earliest(Map(FirstSeen, ps)), Latest(ZERO_TIME, Map(FirstSeen, ps));
    var p :| p in ps && p.firstSeen == lo;
    var q :| q in ps && q.firstSeen == hi;
    assert AllWithin(ps, PATTERN_START_WINDOW) ==> hi - lo <= PATTERN_START_WINDOW;
    assert AllWithin(ps, SECOND - 1) ==> hi - lo <= SECOND - 1;
  }

  /** A zero start makes the loop forget the earlier ones, so the sentence may speak of the clock although the
      starts are apart. All members were first seen within the window exactly when it does and all starts are
      known, or none is later than the window. */
  lemma TogetherIsTrueExactly(ps: seq<Problem>)
    requires ps != [] && forall p :: p in ps ==> p.firstSeen >= ZERO_TIME
    ensures var early := forall p :: p in ps ==> p.firstSeen <= PATTERN_START_WINDOW;
            AllWithin(ps, PATTERN_START_WINDOW) <==> SaysTogether(PatternWhy(ps)) && (Known(ps) || early)
  {
    Ends(ps);
    if Known(ps) {
      TogetherExactly(ps);
    } else {
      SpreadExactly(ps, PATTERN_START_WINDOW);
    }
  }

  /** The earliest start there is. */
  function Floor(ps: seq<Problem>): Time
    requires ps != []
  {
    if forall p :: p in ps ==> p.firstSeen > ZERO_TIME then Earliest(Map(FirstSeen, ps)) else ZERO_TIME
  }

  lemma SpreadExactly(ps: seq<Problem>, d: int)
    requires ps != [] && forall p :: p in ps ==> p.firstSeen >= ZERO_TIME
    ensures AllWithin(ps, d) <==> Latest(ZERO_TIME, Map(FirstSeen, ps)) - Floor(ps) <= d
  {
    Ends(ps);
    var lo, hi := Floor(ps), Latest(ZERO_TIME, Map(FirstSeen, ps));
    var q :| q in ps && q.firstSeen == hi;
    var p :| p in ps && p.firstSeen == lo;
    assert AllWithin(ps, d) ==> q.firstSeen - p.firstSeen <= d;
  }

  /** "All started in the same second" is true exactly when all starts are known, or none is later than a second;
      and of times in whole seconds, as the API's are, it then says that they are one. */
  lemma SameSecondIsTrueExactly(ps: seq<Problem>)
    requires ps != [] && PatternWhy(ps).SameSecond? && forall p :: p in ps ==> p.firstSeen >= ZERO_TIME
    ensures AllWithin(ps, SECOND - 1) <==> Known(ps) || forall p :: p in ps ==> p.firstSeen <= SECOND - 1
    ensures AllWithin(ps, SECOND - 1) && (forall p :: p in ps ==> p.firstSeen % SECOND == 0) ==>
              forall p :: p in ps ==> p.firstSeen == ps[0].firstSeen
  {
    Ends(ps);
    SpreadExactly(ps, SECOND - 1);
    if Known(ps) {
      TogetherExactly(ps);
    }
    assert ps[0] in ps;
    if AllWithin(ps, SECOND - 1) {
      forall p | p in ps && p.firstSeen % SECOND == 0 && ps[0].firstSeen % SECOND == 0
        ensures p.firstSeen == ps[0].firstSeen
      {
        SameMultiple(p.firstSeen, ps[0].firstSeen);
      }
    }
  }

  lemma SameMultiple(a: int, b: int)
    requires a % SECOND == 0 && b % SECOND == 0 && -SECOND < a - b < SECOND
    ensures a == b
  {
  }

  lemma {:induction false} ZeroLastExactly(ts: seq<Time>)
    requires forall t :: t in ts ==> t >= ZERO_TIME
    ensures Earliest(ts) == ZERO_TIME <==> ts == [] || ts[|ts| - 1] == ZERO_TIME
    ensures Earliest(ts) >= ZERO_TIME
  {
    if ts != [] {
      var front := ts[..|ts| - 1];
      assert ts == front + [ts[|ts| - 1]] && ts[|ts| - 1] in ts && forall t :: t in front ==> t in ts;
      ZeroLastExactly(front);
    }
  }

  /** "All first seen within n seconds of each other, from - to": the two times are the ends of the range exactly
      when all starts are known or the last member's is not. */
  lemma EndsAreTrueExactly(ps: seq<Problem>)
    requires ps != [] && PatternWhy(ps).Within? && forall p :: p in ps ==> p.firstSeen >= ZERO_TIME
    ensures var w := PatternWhy(ps);
            (forall p :: p in ps ==> w.from <= p.firstSeen <= w.to) <==>
                Known(ps) || ps[|ps| - 1].firstSeen == ZERO_TIME
  {
    var w, ts := PatternWhy(ps), Map(FirstSeen, ps);
    Ends(ps);
    forall t | t in ts ensures t >= ZERO_TIME {
      StartsMapped(ps, t);
    }
    ZeroLastExactly(ts);
    assert ts[|ts| - 1] == ps[|ps| - 1].firstSeen && ps[|ps| - 1] in ps;
    if !Known(ps) {
      var z :| z in ps && z.firstSeen <= ZERO_TIME;
      assert (forall p :: p in ps ==> w.from <= p.firstSeen <= w.to) ==> w.from <= z.firstSeen;
    }
  }

  /** And the number, which is rounded, is not exceeded exactly when the range from the earliest start, the zero
      one included, to the latest is no longer than it; with known starts, when it is not rounded down. */
  lemma WithinIsTrueExactly(ps: seq<Problem>)
    requires ps != [] && PatternWhy(ps).Within? && forall p :: p in ps ==> p.firstSeen >= ZERO_TIME
    ensures var w := PatternWhy(ps);
            AllWithin(ps, w.seconds * SECOND) <==>
                w.to - (if Known(ps) then w.from else ZERO_TIME) <= w.seconds * SECOND
    ensures var w := PatternWhy(ps);
            Known(ps) ==> (AllWithin(ps, w.seconds * SECOND)
                           <==> (w.to - w.from) % SECOND == 0 || (w.to - w.from) % SECOND >= SECOND / 2)
  {
    var w := PatternWhy(ps);
    Ends(ps);
    SpreadExactly(ps, w.seconds * SECOND);
    Rounded(w.to - w.from);
  }

  /** Rounding to the nearest second goes up from the half on. */
  lemma Rounded(d: int)
    requires d >= 0
    ensures d <= (d + SECOND / 2) / SECOND * SECOND <==> d % SECOND == 0 || d % SECOND >= SECOND / 2
  {
  }

  // ---- Starts that are forgotten -------------------------------------------

  lemma OneMoreStart(ts: seq<Time>, t: Time, more: seq<Time>)
    requires more == ts + [t]
    ensures Earliest(more) == Earlier(Earliest(ts), t)
    ensures Latest(ZERO_TIME, more) == if t > Latest(ZERO_TIME, ts) then t else Latest(ZERO_TIME, ts)
  {
    EarliestStep(ts, t);
    LatestStep(ZERO_TIME, ts, t);
  }

  lemma FirstStart(a: Time)
    requires ZERO_TIME < a
    ensures Earliest([a]) == a && Latest(ZERO_TIME, [a]) == a
  {
    OneMoreStart([], a, [a]);
  }

  lemma LastStartKept(a: Time, b: Time)
    requires ZERO_TIME < a < b
    ensures Earliest([a, ZERO_TIME, b]) == b && Latest(ZERO_TIME, [a, ZERO_TIME, b]) == b
  {
    var one, two, three := [a], [a, ZERO_TIME], [a, ZERO_TIME, b];
    FirstStart(a);
    OneMoreStart(one, ZERO_TIME, two);
    OneMoreStart(two, b, three);
  }

  /** One workload failing in one way in three namespaces: since a known time, since a time nobody knows, and
      since a later one; the earlier the more often. */
  ghost predicate StartsApart(ps: seq<Problem>, now: Time) {
    && |ps| == 3 && Home(ps[0]) != Home(ps[1]) && Home(ps[1]) != Home(ps[2]) && Home(ps[0]) != Home(ps[2])
    && (forall p :: p in ps ==> p.scope == Namespace && p.title == ps[0].title && Primary(p) == Primary(ps[0]))
    && (forall p :: p in ps ==> p.tier == TierAt(now, p.firstSeen) == ps[0].tier)
    && ps[0].occurrences > ps[1].occurrences > ps[2].occurrences
    && ZERO_TIME == ps[1].firstSeen < ps[0].firstSeen && ps[0].firstSeen + SECOND <= ps[2].firstSeen
  }

  lemma ApartTogether(ps: seq<Problem>, now: Time)
    requires StartsApart(ps, now)
    ensures SameCause(ps, 0, 1) && SameCause(ps, 0, 2)
  {
    assert ps[0] in ps && ps[1] in ps && ps[2] in ps;
    assert LinkRule(ps, 0, 1) && LinkRule(ps, 0, 2);
    assert (0, 1) in Links(ps) && (0, 2) in Links(ps);
    ConnectedLink(Links(ps), 0, 1);
    ConnectedLink(Links(ps), 0, 2);
  }

  lemma ApartRows(ps: seq<Problem>, now: Time, a: Problem, b: Problem)
    requires StartsApart(ps, now) && a in ps && b in ps && a.occurrences == b.occurrences
    ensures a == b
  {
    var i: nat :| i < 3 && ps[i] == a;
    var j: nat :| j < 3 && ps[j] == b;
  }

  /** More occurrences come first, so they are in member order. */
  lemma ApartInOrder(ps: seq<Problem>, now: Time, s: seq<Problem>)
    requires StartsApart(ps, now) && Permutes(s, ps) && Sorted(s, MemberBefore)
    ensures s == ps
  {
    PermutesMembers(s, ps);
    forall i, j | 0 <= i < |s| && 0 <= j < |s| && !MemberBefore(s[i], s[j]) && !MemberBefore(s[j], s[i])
      ensures s[i] == s[j]
    {
      assert s[i] in ps && s[j] in ps;
      ApartRows(ps, now, s[i], s[j]);
    }
    SortedUnique(s, ps, MemberBefore);
  }

  lemma ApartSays(ps: seq<Problem>, now: Time)
    requires StartsApart(ps, now)
    ensures PatternWhy(ps) == SameSecond(ps[2].firstSeen)
  {
    assert Map(FirstSeen, ps) == [ps[0].firstSeen, ZERO_TIME, ps[2].firstSeen];
    LastStartKept(ps[0].firstSeen, ps[2].firstSeen);
  }

  /** Such rows are merged, and their pattern says that all started in the same second, the last one's. */
  lemma StartsForgotten(ps: seq<Problem>, now: Time, p: Problem)
    requires StartsApart(ps, now) && IsPatternOf(ps, now, p)
    ensures SameCause(ps, 0, 1) && SameCause(ps, 0, 2)
    ensures p.why == SameSecond(ps[2].firstSeen) && !AllWithin(ps, SECOND - 1)
  {
    ApartTogether(ps, now);
    var s := MemberOrderOf(ps, now, p);
    ApartInOrder(ps, now, s);
    ApartSays(ps, now);
    assert ps[0] in ps && ps[2] in ps;
  }

  /** Otherwise the sentence speaks of one reason (or of one workload failing in one way), which nothing on the
      way has checked: it is right exactly when the title names one. */
  lemma SameReasonIsTrueExactly(ps: seq<Problem>)
    requires ps != [] && !SaysTogether(PatternWhy(ps))
    ensures SaysSameReason(PatternWhy(ps))
    ensures OneReason(ps) <==> |ReasonTable(Primaries(ps))| == 1
    ensures PatternWhy(ps).SameWorkload? <==> SameName(ps)
  {
    OneReasonExactly(ps);
  }

  /** Two rows that started together, and two that are one workload with one reason. */
  ghost predicate Chained(ps: seq<Problem>) {
    && |ps| == 3 && ps[0].scope == Namespace && ps[1].scope == Namespace && ps[2].scope == Namespace
    && ps[0].tier == ps[1].tier == ps[2].tier && Home(ps[0]) != Home(ps[1]) && Home(ps[1]) != Home(ps[2])
    && StartedTogether(ps[0].firstSeen, ps[1].firstSeen)
    && ps[1].title == ps[2].title && Primary(ps[1]) == Primary(ps[2])
  }

  lemma ChainTogether(ps: seq<Problem>)
    requires Chained(ps)
    ensures SameCause(ps, 0, 1) && SameCause(ps, 0, 2)
  {
    assert LinkRule(ps, 0, 1) && LinkRule(ps, 1, 2);
    assert (0, 1) in Links(ps) && (1, 2) in Links(ps);
    ConnectedLink(Links(ps), 0, 1);
    ConnectedLink(Links(ps), 1, 2);
    ConnectedTrans(Links(ps), 0, 1, 2);
  }

  /** Two starts further apart than the window, and two names, leave the sentence about one reason. */
  lemma SaysOneReason(ps: seq<Problem>, a: Problem, b: Problem, c: Problem)
    requires a in ps && b in ps && c in ps && Known(ps)
    requires c.firstSeen - a.firstSeen > PATTERN_START_WINDOW && a.title != b.title
    ensures PatternWhy(ps).SameReason?
  {
    TogetherExactly(ps);
    assert !AllWithin(ps, PATTERN_START_WINDOW);
    SameReasonIsTrueExactly(ps);
    assert !SameName(ps);
  }

  lemma PatternSaysOneReason(ps: seq<Problem>, now: Time, p: Problem, a: Problem, b: Problem, c: Problem)
    requires a in ps && b in ps && c in ps && Known(ps) && IsPatternOf(ps, now, p)
    requires c.firstSeen - a.firstSeen > PATTERN_START_WINDOW && a.title != b.title
    ensures p.why.SameReason?
  {
    var s := MemberOrderOf(ps, now, p);
    PermutesMembers(s, ps);
    SaysOneReason(s, a, b, c);
  }

  /** Three rows merged because the first two started together and the last two are one workload with one
      reason: the pattern's sentence speaks of the same reason, which the first does not have. */
  lemma ReasonsDiffer(ps: seq<Problem>, now: Time, p: Problem)
    requires Chained(ps) && Known(ps) && IsPatternOf(ps, now, p)
    requires ps[2].firstSeen - ps[0].firstSeen > PATTERN_START_WINDOW
    requires ps[0].title != ps[1].title && Primary(ps[0]) != Primary(ps[1])
    ensures SameCause(ps, 0, 1) && SameCause(ps, 0, 2)
    ensures p.why.SameReason? && !OneReason(ps)
  {
    ChainTogether(ps);
    PatternSaysOneReason(ps, now, p, ps[0], ps[1], ps[2]);
    assert ps[0] in ps && ps[1] in ps;
  }
}
