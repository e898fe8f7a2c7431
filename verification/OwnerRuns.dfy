/** Runs of the owner queue (owners.go) confirm chains: five rounds of asking, taking and recording leave no chain
    inferred, whatever else happens in between, while no good answer expires. */
module OwnerRuns {
  import opened Clock
  import opened Groups
  import opened Names
  import opened Owners
  import opened OwnerChains

  /** Found, and still good at time t. */
  predicate Good(known: Known, k: Key, t: Time) {
    IsFresh(known, k, t) && !known[k].missing
  }

  /** What is still good at the end no step touches: nothing good is looked up again or purged. */
  lemma StepKeepsGood(s: Owners, step: Step, now: Time, k: Key, end: Time)
    requires Inv(s, now) && Enabled(s, step, now) && now <= end && Good(s.known, k, end)
    ensures Good(Next(s, step, now).known, k, end) && Next(s, step, now).known[k] == s.known[k]
  {
    assert IsFresh(s.known, k, now);
    if step.Record? {
      assert step.key in s.queued;
    }
  }

  lemma InvNow(states: seq<Owners>, steps: seq<Timed>, i: nat)
    requires IsRun(states, steps) && i < |steps|
    ensures Inv(states[i], steps[i].now)
  {
    if i == 0 {
      assert Inv(NEW_OWNERS, steps[0].now);
    } else {
      RunKeepsInv(states, steps, i);
      TimePasses(states[i], steps[i - 1].now, steps[i].now);
    }
  }

  lemma {:induction false} ClockForward(states: seq<Owners>, steps: seq<Timed>, i: nat, j: nat)
    requires IsRun(states, steps) && i <= j < |steps|
    ensures steps[i].now <= steps[j].now
    decreases j
  {
    if i < j {
      ClockForward(states, steps, i, j - 1);
    }
  }

  lemma {:induction false} RunKeepsGood(states: seq<Owners>, steps: seq<Timed>, i: nat, j: nat, k: Key, end: Time)
    requires IsRun(states, steps) && i <= j <= |steps| && Good(states[i].known, k, end)
    requires j > 0 ==> steps[j - 1].now <= end
    ensures Good(states[j].known, k, end) && states[j].known[k] == states[i].known[k]
    decreases j
  {
    if i < j {
      if j > 1 {
        ClockForward(states, steps, j - 2, j - 1);
      }
      RunKeepsGood(states, steps, i, j - 1, k, end);
      InvNow(states, steps, j - 1);
      StepKeepsGood(states[j - 1], steps[j - 1].step, steps[j - 1].now, k, end);
    }
  }

  /** The answer is there after step i, and good at time t. */
  predicate GoodAfter(states: seq<Owners>, steps: seq<Timed>, i: nat, k: Key, t: Time)
    requires |states| == |steps| + 1 && i < |steps|
  {
    Good(states[i + 1].known, k, t)
  }

  /** No good answer expires between two steps of the run. */
  ghost predicate NothingExpires(states: seq<Owners>, steps: seq<Timed>, from: nat, to: nat)
    requires |states| == |steps| + 1 && to < |steps|
  {
    forall i: nat, k :: from <= i <= to && GoodAfter(states, steps, i, k, steps[i].now) ==>
        GoodAfter(states, steps, i, k, steps[to].now)
  }

  /** The reading of the cache that step i makes. */
  ghost function ViewAt(states: seq<Owners>, steps: seq<Timed>, i: nat): View
    requires |states| == |steps| + 1 && i < |steps|
  {
    View(states[i].known, states[i].kindOf, steps[i].now)
  }

  /** The reading right after step i. */
  ghost function ViewAfter(states: seq<Owners>, steps: seq<Timed>, i: nat): View
    requires |states| == |steps| + 1 && i < |steps|
  {
    View(states[i + 1].known, states[i + 1].kindOf, steps[i].now)
  }

  lemma KeepsAlong(states: seq<Owners>, steps: seq<Timed>, i: nat, w: View, j: nat, end: nat)
    requires IsRun(states, steps) && i <= j <= end + 1 && end < |steps| && i <= end
    requires NothingExpires(states, steps, i, end)
    requires w.known == states[j].known && w.now <= steps[end].now
    ensures Keeps(states[i].known, steps[i].now, w.known, w.now)
  {
    forall k | Good(states[i].known, k, steps[i].now)
      ensures Good(w.known, k, w.now) && w.known[k] == states[i].known[k]
    {
      InvNow(states, steps, i);
      StepKeepsGood(states[i], steps[i].step, steps[i].now, k, steps[i].now);
      assert GoodAfter(states, steps, i, k, steps[i].now);
      if j > 0 {
        ClockForward(states, steps, j - 1, end);
      }
      RunKeepsGood(states, steps, i, j, k, steps[end].now);
    }
  }

  /** A round for an object: at step c its chain is handed in for confirmation, at step t the job of the chain's
      open link is taken from the queue, and step r records that the link's object was found. A chain without an
      open link needs nothing more. */
  ghost predicate Round(states: seq<Owners>, steps: seq<Timed>, ns: string, o: ObjRef, c: nat, t: nat, r: nat)
    requires |states| == |steps| + 1
  {
    && c < t < r < |steps|
    && var v := ViewAt(states, steps, c);
       var chain, n := ViewChain(v, ns, o), ViewConfirmed(v, ns, o);
       && steps[c].step == Confirm(ns, chain)
       && (n < |chain| ==>
             && steps[t].step.Take? && states[t].queue != [] && states[t].queue[0] == KeyOf(ns, chain[n])
             && Finds(steps[r], KeyOf(ns, chain[n])))
  }

  /** The step records a lookup of k that found its object, and whose answer is good. */
  predicate Finds(step: Timed, k: Key) {
    step.step.Record? && step.step.key == k && !step.step.entry.missing && Fresh(step.step.entry, step.now)
  }

  lemma FoundIsGood(states: seq<Owners>, steps: seq<Timed>, r: nat, k: Key)
    requires IsRun(states, steps) && r < |steps| && Finds(steps[r], k)
    ensures Good(states[r + 1].known, k, steps[r].now)
  {
  }

  /** What a step found is good in every later state. */
  lemma FoundStaysGood(states: seq<Owners>, steps: seq<Timed>, r: nat, k: Key, j: nat, end: nat)
    requires IsRun(states, steps) && r < j <= end + 1 && end < |steps| && Finds(steps[r], k)
    requires NothingExpires(states, steps, r, end)
    ensures Good(states[j].known, k, steps[end].now)
  {
    FoundIsGood(states, steps, r, k);
    assert GoodAfter(states, steps, r, k, steps[r].now);
    ClockForward(states, steps, j - 1, end);
    RunKeepsGood(states, steps, r + 1, j, k, steps[end].now);
  }

  lemma StillGood(known: Known, k: Key, t: Time, end: Time)
    requires t <= end && Good(known, k, end)
    ensures Good(known, k, t)
  {
  }

  lemma NothingExpiresLater(states: seq<Owners>, steps: seq<Timed>, from: nat, later: nat, to: nat)
    requires |states| == |steps| + 1 && from <= later && to < |steps| && NothingExpires(states, steps, from, to)
    ensures NothingExpires(states, steps, later, to)
  {
  }

  /** A round resolves the chain's open link for every later reading. */
  lemma RoundResolves(states: seq<Owners>, steps: seq<Timed>, ns: string, o: ObjRef, c: nat, t: nat, r: nat, w: View,
                      j: nat, end: nat)
    requires IsRun(states, steps) && Round(states, steps, ns, o, c, t, r) && r < j <= end + 1 && end < |steps|
    requires NothingExpires(states, steps, c, end)
    requires w.known == states[j].known && w.now <= steps[end].now
    ensures Resolves(ViewAt(states, steps, c), w, ns, o)
  {
    var v := ViewAt(states, steps, c);
    KeepsAlong(states, steps, c, w, j, end);
    if ViewConfirmed(v, ns, o) < |ViewChain(v, ns, o)| {
      var k := KeyOf(ns, ViewChain(v, ns, o)[ViewConfirmed(v, ns, o)]);
      NothingExpiresLater(states, steps, c, r, end);
      FoundStaysGood(states, steps, r, k, j, end);
      StillGood(w.known, k, w.now, steps[end].now);
    }
  }

  /** Five rounds, one after the other. */
  ghost predicate Rounds(states: seq<Owners>, steps: seq<Timed>, ns: string, o: ObjRef, cs: seq<nat>, ts: seq<nat>,
                         rs: seq<nat>)
    requires |states| == |steps| + 1
  {
    && |cs| == |ts| == |rs| == OWNER_MAX_DEPTH + 1
    && (forall i :: 0 <= i < |cs| ==> Round(states, steps, ns, o, cs[i], ts[i], rs[i]))
    && (forall i :: 0 < i < |cs| ==> rs[i - 1] < cs[i])
  }

  lemma {:induction false} RoundsInOrder(states: seq<Owners>, steps: seq<Timed>, ns: string, o: ObjRef, cs: seq<nat>,
                                         ts: seq<nat>,
                                         rs: seq<nat>, i: nat)
    requires |states| == |steps| + 1 && Rounds(states, steps, ns, o, cs, ts, rs) && i < |cs|
    ensures cs[0] <= cs[i] && rs[i] <= rs[|rs| - 1] && (i + 1 < |cs| ==> cs[i + 1] <= rs[|rs| - 1])
    decreases |cs| - i
  {
    assert Round(states, steps, ns, o, cs[i], ts[i], rs[i]);
    if i + 1 < |cs| {
      RoundsInOrder(states, steps, ns, o, cs, ts, rs, i + 1);
    }
    FirstRoundFirst(states, steps, ns, o, cs, ts, rs, i);
  }

  lemma {:induction false} FirstRoundFirst(states: seq<Owners>, steps: seq<Timed>, ns: string, o: ObjRef,
                                           cs: seq<nat>, ts: seq<nat>,
                                           rs: seq<nat>, i: nat)
    requires |states| == |steps| + 1 && Rounds(states, steps, ns, o, cs, ts, rs) && i < |cs|
    ensures cs[0] <= cs[i]
    decreases i
  {
    if i > 0 {
      FirstRoundFirst(states, steps, ns, o, cs, ts, rs, i - 1);
      assert Round(states, steps, ns, o, cs[i - 1], ts[i - 1], rs[i - 1]);
    }
  }

  ghost function RoundViews(states: seq<Owners>, steps: seq<Timed>, cs: seq<nat>, last: nat): (vs: seq<View>)
    requires |states| == |steps| + 1 && last < |steps| && forall i :: 0 <= i < |cs| ==> cs[i] < |steps|
    ensures |vs| == |cs| + 1 && vs[|cs|] == ViewAfter(states, steps, last)
    ensures forall i :: 0 <= i < |cs| ==> vs[i] == ViewAt(states, steps, cs[i])
  {
    seq(|cs|, i requires 0 <= i < |cs| => ViewAt(states, steps, cs[i])) + [ViewAfter(states, steps, last)]
  }

  /** In every run of the queue: after five rounds for an object in which nothing good expired, its chain is not
      marked inferred, whatever was known at first and whatever else happened in between. */
  lemma FiveRoundsConfirm(states: seq<Owners>, steps: seq<Timed>, ns: string, o: ObjRef, cs: seq<nat>, ts: seq<nat>,
                          rs: seq<nat>)
    requires IsRun(states, steps) && Rounds(states, steps, ns, o, cs, ts, rs)
    requires var last := rs[OWNER_MAX_DEPTH];
             last < |steps| && NothingExpires(states, steps, cs[0], last)
    ensures var v := ViewAfter(states, steps, rs[OWNER_MAX_DEPTH]);
            !Inferred(v.known, v.kindOf, ns, o, v.now)
  {
    var last := rs[OWNER_MAX_DEPTH];
    forall i | 0 <= i < |cs| ensures cs[i] < |steps| {
      assert Round(states, steps, ns, o, cs[i], ts[i], rs[i]);
    }
    var vs := RoundViews(states, steps, cs, last);
    forall i {:trigger vs[i]} | 0 <= i < |vs| - 1 ensures Resolves(vs[i], vs[i + 1], ns, o) {
      RoundViewResolves(states, steps, ns, o, cs, ts, rs, i);
    }
    FiveLookupsConfirm(vs, ns, o);
  }

  lemma RoundViewResolves(states: seq<Owners>, steps: seq<Timed>, ns: string, o: ObjRef, cs: seq<nat>, ts: seq<nat>,
                          rs: seq<nat>, i: nat)
    requires IsRun(states, steps) && Rounds(states, steps, ns, o, cs, ts, rs) && i < |cs|
    requires forall x :: 0 <= x < |cs| ==> cs[x] < |steps|
    requires rs[OWNER_MAX_DEPTH] < |steps| && NothingExpires(states, steps, cs[0], rs[OWNER_MAX_DEPTH])
    ensures var vs := RoundViews(states, steps, cs, rs[OWNER_MAX_DEPTH]); Resolves(vs[i], vs[i + 1], ns, o)
  {
    var last := rs[OWNER_MAX_DEPTH];
    RoundsInOrder(states, steps, ns, o, cs, ts, rs, i);
    NothingExpiresLater(states, steps, cs[0], cs[i], last);
    var vs := RoundViews(states, steps, cs, last);
    if i + 1 < |cs| {
      ClockForward(states, steps, cs[i + 1], last);
      RoundResolves(states, steps, ns, o, cs[i], ts[i], rs[i], vs[i + 1], cs[i + 1], last);
    } else {
      RoundResolves(states, steps, ns, o, cs[i], ts[i], rs[i], vs[i + 1], last + 1, last);
    }
  }

  // ---- A top that was not found --------------------------------------------

  const CHILD := ObjRef("Pod", "p")
  const PARENT := ObjRef("Widget", "w")
  const NOBODY := ObjRef("", "")

  /** The Pod is looked up and names its owner; the owner, queued next, is not found. */
  function MissingTopSteps(ns: string, now: Time): seq<Timed> {
    [Timed(LookupRoot(ns, CHILD), now), Timed(Take, now),
     Timed(Record(KeyOf(ns, CHILD), Entry(PARENT, false, now, ZERO_TIME, ZERO_TIME)), now), Timed(Take, now),
     Timed(Record(KeyOf(ns, PARENT), Entry(NOBODY, true, now, ZERO_TIME, ZERO_TIME)), now)]
  }

  lemma ChildAnswered(ns: string, now: Time) returns (s: Owners)
    ensures var steps := MissingTopSteps(ns, now);
            var s0 := Next(NEW_OWNERS, steps[0].step, now);
            Enabled(s0, Take, now)
            && var s1 := Next(s0, Take, now);
               Enabled(s1, steps[2].step, now) && s == Next(s1, steps[2].step, now)
    ensures s.queue == [KeyOf(ns, PARENT)]
        && s.known == map[KeyOf(ns, CHILD) := Entry(PARENT, false, now, ZERO_TIME, ZERO_TIME)]
  {
    var steps := MissingTopSteps(ns, now);
    var s0 := Next(NEW_OWNERS, steps[0].step, now);
    assert s0.queue == [KeyOf(ns, CHILD)];
    var s1 := Next(s0, Take, now);
    assert s1.queue == [] && s1.known == map[];
    s := Next(s1, steps[2].step, now);
  }

  lemma ParentAnswered(ns: string, now: Time, s: Owners) returns (r: Owners)
    requires s.queue == [KeyOf(ns, PARENT)]
    requires s.known == map[KeyOf(ns, CHILD) := Entry(PARENT, false, now, ZERO_TIME, ZERO_TIME)]
    ensures var step := MissingTopSteps(ns, now)[4].step;
            Enabled(s, Take, now)
            && var t := Next(s, Take, now);
               Enabled(t, step, now) && r == Next(t, step, now)
    ensures KeyOf(ns, CHILD) in r.known && r.known[KeyOf(ns, CHILD)] == s.known[KeyOf(ns, CHILD)]
    ensures KeyOf(ns, PARENT) in r.known && r.known[KeyOf(ns, PARENT)] == Entry(NOBODY, true, now, ZERO_TIME, ZERO_TIME)
  {
    var t := Next(s, Take, now);
    r := Next(t, MissingTopSteps(ns, now)[4].step, now);
    assert KeyOf(ns, CHILD) != KeyOf(ns, PARENT);
  }

  lemma FiveSteps(steps: seq<Timed>, states: seq<Owners>)
    requires |steps| == 5 && |states| == 6 && states[0] == NEW_OWNERS
    requires steps[0].now == steps[1].now == steps[2].now == steps[3].now == steps[4].now
    requires Enabled(states[0], steps[0].step, steps[0].now)
        && states[1] == Next(states[0], steps[0].step, steps[0].now)
    requires Enabled(states[1], steps[1].step, steps[1].now)
        && states[2] == Next(states[1], steps[1].step, steps[1].now)
    requires Enabled(states[2], steps[2].step, steps[2].now)
        && states[3] == Next(states[2], steps[2].step, steps[2].now)
    requires Enabled(states[3], steps[3].step, steps[3].now)
        && states[4] == Next(states[3], steps[3].step, steps[3].now)
    requires Enabled(states[4], steps[4].step, steps[4].now)
        && states[5] == Next(states[4], steps[4].step, steps[4].now)
    ensures IsRun(states, steps)
  {
    forall i | 0 <= i < 5
      ensures Enabled(states[i], steps[i].step, steps[i].now)
              && states[i + 1] == Next(states[i], steps[i].step, steps[i].now)
    {
      assert i == 0 || i == 1 || i == 2 || i == 3 || i == 4;
    }
  }

  lemma MissingTopRun(ns: string, now: Time) returns (states: seq<Owners>)
    ensures IsRun(states, MissingTopSteps(ns, now))
    ensures MissingTop(states[|MissingTopSteps(ns, now)|].known, ns, now)
  {
    var steps := MissingTopSteps(ns, now);
    var s3 := ChildAnswered(ns, now);
    var s5 := ParentAnswered(ns, now, s3);
    var s1 := Next(NEW_OWNERS, steps[0].step, now);
    states := [NEW_OWNERS, s1, Next(s1, Take, now), s3, Next(s3, Take, now), s5];
    FiveSteps(steps, states);
  }

  /** The Pod's owner is known, and was looked up and not found. */
  predicate MissingTop(known: Known, ns: string, now: Time) {
    && Settled(known, ns, CHILD, now) && known[KeyOf(ns, CHILD)].parent == PARENT
    && IsFresh(known, KeyOf(ns, PARENT), now) && known[KeyOf(ns, PARENT)].missing
  }

  lemma MissingTopChain(known: Known, kindOf: Kinds, ns: string, now: Time)
    requires MissingTop(known, ns, now)
    ensures ChainOf(known, kindOf, ns, CHILD, now) == [CHILD, PARENT]
    ensures !Inferred(known, kindOf, ns, CHILD, now)
  {
    var link := LinkAt(known, kindOf, ns, now);
    assert link(CHILD) == Answered(PARENT);
    assert link(PARENT) == Top by {
      assert InferParent("Widget", "w") == None;
    }
    assert Climb(link, PARENT, OWNER_MAX_DEPTH - 1) == [PARENT];
    assert Climb(link, CHILD, OWNER_MAX_DEPTH) == [CHILD] + [PARENT];
  }

  /** Such a run: the chain's top was looked up and not found, and still the chain is not marked inferred. */
  lemma MissingTopIsConfirmed(ns: string, now: Time) returns (states: seq<Owners>)
    ensures IsRun(states, MissingTopSteps(ns, now))
    ensures var s := states[|MissingTopSteps(ns, now)|];
            && ChainOf(s.known, s.kindOf, ns, CHILD, now) == [CHILD, PARENT]
            && IsFresh(s.known, KeyOf(ns, PARENT), now) && s.known[KeyOf(ns, PARENT)].missing
            && !Inferred(s.known, s.kindOf, ns, CHILD, now)
  {
    states := MissingTopRun(ns, now);
    var s := states[|MissingTopSteps(ns, now)|];
    MissingTopChain(s.known, s.kindOf, ns, now);
  }
}
