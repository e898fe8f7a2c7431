/** Owner resolution (owners.go): a cache of API answers, a queue of lookups, and the chains they confirm. */
module Owners {
  import opened Clock
  import opened Groups
  import opened Sequences

  datatype Key = Key(ns: string, kind: string, name: string)

  datatype Entry = Entry(parent: ObjRef, missing: bool, at: Time, created: Time, lastSuccess: Time)

  const OWNER_TTL := 30 * MINUTE
  const OWNER_MISSING_TTL := 5 * MINUTE
  const OWNER_MAX_DEPTH := 4
  const OWNER_QUEUE_MAX := 200
  const OWNER_KNOWN_MAX := 5000

  function Lifetime(missing: bool): int {
    if missing then OWNER_MISSING_TTL else OWNER_TTL
  }

  predicate Fresh(e: Entry, now: Time) {
    now - e.at < Lifetime(e.missing)
  }

  function KeyOf(ns: string, o: ObjRef): Key {
    Key(ns, o.kind, o.name)
  }

  type Known = map<Key, Entry>

  predicate IsFresh(known: Known, k: Key, now: Time) {
    k in known && Fresh(known[k], now)
  }

  /** A recorded lookup. */
  datatype Lookup = Lookup(key: Key, at: Time, missing: bool)

  /** The owner state; with the jobs taken and not yet done, and when they were taken, and every lookup ever
      recorded. */
  datatype Owners = Owners(
    known: Known,
    kindOf: map<(string, string), string>,
    queue: seq<Key>,
    queued: set<Key>,
    taken: map<Key, Time>,
    history: seq<Lookup>)

  const NEW_OWNERS := Owners(map[], map[], [], {}, map[], [])

  // ---- What each critical section does -------------------------------------

  /** A link is settled when its lookup is fresh and found something. */
  predicate Settled(known: Known, ns: string, o: ObjRef, now: Time) {
    IsFresh(known, KeyOf(ns, o), now) && !known[KeyOf(ns, o)].missing
  }

  /** How many links, from the object up, are settled. */
  function Confirmed(known: Known, ns: string, chain: seq<ObjRef>, now: Time): (n: nat)
    ensures n <= |chain|
    ensures forall i :: 0 <= i < n ==> Settled(known, ns, chain[i], now)
    ensures n < |chain| ==> !Settled(known, ns, chain[n], now)
  {
    if chain == [] || !Settled(known, ns, chain[0], now) then 0 else Confirmed(known, ns, chain[1..], now) + 1
  }

  /** Whether the chain can be confirmed through its object. */
  predicate Confirmable(known: Known, ns: string, chain: seq<ObjRef>, now: Time) {
    var n := Confirmed(known, ns, chain, now);
    n == |chain| || (!IsFresh(known, KeyOf(ns, chain[n]), now) && chain[n].kind != "")
  }

  function Enqueue(s: Owners, k: Key): Owners {
    if k in s.queued || |s.queue| >= OWNER_QUEUE_MAX then s else s.(queue := s.queue + [k], queued := s.queued + {k})
  }

  function EnqueueFirst(s: Owners, k: Key, now: Time): Owners {
    if k in s.queued || IsFresh(s.known, k, now) then s else s.(queue := [k] + s.queue, queued := s.queued + {k})
  }

  function Requested(s: Owners, ns: string, chain: seq<ObjRef>, now: Time): Owners {
    var n := Confirmed(s.known, ns, chain, now);
    if n < |chain| && Confirmable(s.known, ns, chain, now) then Enqueue(s, KeyOf(ns, chain[n])) else s
  }

  function TakenFirst(s: Owners, now: Time): Owners
    requires s.queue != []
  {
    s.(queue := s.queue[1..], taken := s.taken[s.queue[0] := now])
  }

  function TakenAll(s: Owners, now: Time): Owners {
    s.(queue := [], taken := s.taken + map k | k in s.queue :: now)
  }

  function Forgotten(s: Owners, k: Key): Owners {
    s.(queued := s.queued - {k}, taken := s.taken - {k})
  }

  function Purged(known: Known, now: Time): Known {
    if |known| >= OWNER_KNOWN_MAX then map k | k in known && Fresh(known[k], now) :: known[k] else known
  }

  /** The state between recording an answer and queueing its owner. */
  function Answered(s: Owners, k: Key, e: Entry, now: Time): Owners {
    s.(known := Purged(s.known, now)[k := e], queued := s.queued - {k}, taken := s.taken - {k},
       history := s.history + [Lookup(k, e.at, e.missing)])
  }

  function Recorded(s: Owners, k: Key, e: Entry, now: Time): Owners {
    var r := Answered(s, k, e, now);
    if e.parent.name == "" then r
    else EnqueueFirst(r.(kindOf := s.kindOf[(k.ns, e.parent.name) := e.parent.kind]), KeyOf(k.ns, e.parent), now)
  }

  // ---- The invariant -------------------------------------------------------

  /** Nothing is looked up while its last answer is still good. */
  ghost predicate Due(history: seq<Lookup>, k: Key, t: Time) {
    forall i :: 0 <= i < |history| && history[i].key == k ==> t - history[i].at >= Lifetime(history[i].missing)
  }

  /** Two lookups of the same object are at least a lifetime of the first one's answer apart. */
  ghost predicate Spaced(history: seq<Lookup>) {
    forall i, j :: 0 <= i < j < |history| && history[i].key == history[j].key ==>
      history[j].at - history[i].at >= Lifetime(history[i].missing)
  }

  /** The cache still holds every answer that is good at time t. */
  ghost predicate Remembers(known: Known, history: seq<Lookup>, t: Time) {
    forall i {:trigger history[i]} :: 0 <= i < |history| ==> Remembered(known, history[i], t)
  }

  predicate Remembered(known: Known, h: Lookup, t: Time) {
    && h.at <= t
    && (t - h.at < Lifetime(h.missing) ==>
        h.key in known && known[h.key].at == h.at && known[h.key].missing == h.missing)
  }

  /** The queue: each job once, queued or being looked up, and none whose answer is still good. */
  ghost predicate QueueOk(s: Owners, t: Time) {
    && Distinct(s.queue)
    && (forall k :: k in s.queued <==> k in s.queue || k in s.taken)
    && (forall k :: k in s.queue ==> k !in s.taken)
    && (forall k :: k in s.queued ==> !IsFresh(s.known, k, t))
  }

  ghost predicate TakenOk(s: Owners, t: Time) {
    forall k {:trigger s.taken[k]} :: k in s.taken ==> s.taken[k] <= t && Due(s.history, k, s.taken[k])
  }

  ghost predicate Inv(s: Owners, t: Time) {
    QueueOk(s, t) && TakenOk(s, t) && Remembers(s.known, s.history, t) && Spaced(s.history)
  }

  // ---- Steps ---------------------------------------------------------------

  datatype Step =
    | Confirm(ns: string, chain: seq<ObjRef>)
    | LookupRoot(ns: string, root: ObjRef)
    | Take
    | Drain
    | Forget(key: Key)
    | Record(key: Key, entry: Entry)

  /** The lookup of a job starts after it was taken and is recorded later. */
  predicate Enabled(s: Owners, step: Step, now: Time) {
    match step
    case Take => s.queue != []
    case Forget(k) => k in s.taken
    case Record(k, e) => k in s.taken && s.taken[k] <= e.at <= now
    case _ => true
  }

  function Next(s: Owners, step: Step, now: Time): Owners
    requires Enabled(s, step, now)
  {
    match step
    case Confirm(ns, chain) => Requested(s, ns, chain, now)
    case LookupRoot(ns, root) => EnqueueFirst(s, KeyOf(ns, root), now)
    case Take => TakenFirst(s, now)
    case Drain => TakenAll(s, now)
    case Forget(k) => Forgotten(s, k)
    case Record(k, e) => Recorded(s, k, e, now)
  }

  /** An answer that was not good stays so, and one the cache forgets was not. */
  lemma TimePasses(s: Owners, t: Time, now: Time)
    requires Inv(s, t) && t <= now
    ensures Inv(s, now)
  {
    forall i | 0 <= i < |s.history| ensures Remembered(s.known, s.history[i], now) {
      assert Remembered(s.known, s.history[i], t);
    }
  }

  lemma EnqueueOk(s: Owners, k: Key, now: Time, r: Owners)
    requires Inv(s, now) && k !in s.queued && !IsFresh(s.known, k, now)
    requires r == s.(queue := r.queue, queued := s.queued + {k})
    requires r.queue == [k] + s.queue || r.queue == s.queue + [k]
    ensures Inv(r, now)
  {
    assert forall j :: j in r.queue <==> j == k || j in s.queue;
  }

  lemma TakeOk(s: Owners, now: Time)
    requires Inv(s, now) && s.queue != []
    ensures Inv(TakenFirst(s, now), now)
  {
    var r, k := TakenFirst(s, now), s.queue[0];
    assert forall j :: j in s.queue <==> j == k || j in r.queue;
    DueNow(s, k, now);
  }

  /** What waits in the queue may be looked up now. */
  lemma DueNow(s: Owners, k: Key, now: Time)
    requires Inv(s, now) && k in s.queue
    ensures Due(s.history, k, now)
  {
    forall i | 0 <= i < |s.history| && s.history[i].key == k
      ensures now - s.history[i].at >= Lifetime(s.history[i].missing)
    {
      assert Remembered(s.known, s.history[i], now);
    }
  }

  lemma DrainOk(s: Owners, now: Time)
    requires Inv(s, now)
    ensures Inv(TakenAll(s, now), now)
  {
    var r := TakenAll(s, now);
    forall k | k in r.taken ensures r.taken[k] <= now && Due(r.history, k, r.taken[k]) {
      if k in s.queue {
        DueNow(s, k, now);
      } else {
        assert r.taken[k] == s.taken[k];
      }
    }
  }

  lemma ForgetOk(s: Owners, k: Key, now: Time)
    requires Inv(s, now) && k in s.taken
    ensures Inv(Forgotten(s, k), now)
  {
    var r := Forgotten(s, k);
    forall j | j in r.taken ensures r.taken[j] <= now && Due(r.history, j, r.taken[j]) {
      assert r.taken[j] == s.taken[j];
    }
  }

  lemma AnsweredRemembers(s: Owners, k: Key, e: Entry, now: Time)
    requires Inv(s, now) && Enabled(s, Record(k, e), now)
    ensures Remembers(Answered(s, k, e, now).known, Answered(s, k, e, now).history, now)
  {
    var r := Answered(s, k, e, now);
    forall i | 0 <= i < |r.history| ensures Remembered(r.known, r.history[i], now) {
      if i < |s.history| {
        assert Remembered(s.known, s.history[i], now) && r.history[i] == s.history[i];
        assert s.taken[k] <= now && Due(s.history, k, s.taken[k]);
      }
    }
  }

  lemma AnsweredTaken(s: Owners, k: Key, e: Entry, now: Time)
    requires Inv(s, now) && Enabled(s, Record(k, e), now)
    ensures TakenOk(Answered(s, k, e, now), now)
  {
    var r := Answered(s, k, e, now);
    forall j | j in r.taken ensures r.taken[j] <= now && Due(r.history, j, r.taken[j]) {
      assert r.taken[j] == s.taken[j] && Due(s.history, j, s.taken[j]);
    }
  }

  lemma AnsweredOk(s: Owners, k: Key, e: Entry, now: Time)
    requires Inv(s, now) && Enabled(s, Record(k, e), now)
    ensures Inv(Answered(s, k, e, now), now)
  {
    AnsweredRemembers(s, k, e, now);
    AnsweredTaken(s, k, e, now);
    assert Due(s.history, k, s.taken[k]);
  }

  lemma RecordOk(s: Owners, k: Key, e: Entry, now: Time)
    requires Inv(s, now) && Enabled(s, Record(k, e), now)
    ensures Inv(Recorded(s, k, e, now), now)
  {
    var r := Answered(s, k, e, now);
    AnsweredOk(s, k, e, now);
    if e.parent.name != "" {
      var r' := r.(kindOf := s.kindOf[(k.ns, e.parent.name) := e.parent.kind]);
      var p := KeyOf(k.ns, e.parent);
      assert Inv(r', now);
      if p !in r'.queued && !IsFresh(r'.known, p, now) {
        EnqueueOk(r', p, now, EnqueueFirst(r', p, now));
      }
    }
  }

  lemma StepKeepsInv(s: Owners, t: Time, step: Step, now: Time)
    requires Inv(s, t) && t <= now && Enabled(s, step, now)
    ensures Inv(Next(s, step, now), now)
  {
    TimePasses(s, t, now);
    match step
    case Confirm(ns, chain) =>
      var n := Confirmed(s.known, ns, chain, now);
      if n < |chain| && Confirmable(s.known, ns, chain, now) && KeyOf(ns, chain[n]) !in s.queued
          && |s.queue| < OWNER_QUEUE_MAX {
        EnqueueOk(s, KeyOf(ns, chain[n]), now, Next(s, step, now));
      }
    case LookupRoot(ns, root) =>
      if KeyOf(ns, root) !in s.queued && !IsFresh(s.known, KeyOf(ns, root), now) {
        EnqueueOk(s, KeyOf(ns, root), now, Next(s, step, now));
      }
    case Take => TakeOk(s, now);
    case Drain => DrainOk(s, now);
    case Forget(k) => ForgetOk(s, k, now);
    case Record(k, e) => RecordOk(s, k, e, now);
  }

  // ---- Over every run ------------------------------------------------------

  datatype Timed = Timed(step: Step, now: Time)

  /** Each step is possible, and the clock never goes back. */
  ghost predicate IsRun(states: seq<Owners>, steps: seq<Timed>) {
    && |states| == |steps| + 1
    && states[0] == NEW_OWNERS
    && (forall i :: 0 <= i < |steps| ==>
          Enabled(states[i], steps[i].step, steps[i].now)
              && states[i + 1] == Next(states[i], steps[i].step, steps[i].now))
    && (forall i :: 0 < i < |steps| ==> steps[i - 1].now <= steps[i].now)
  }

  lemma {:induction false} RunKeepsInv(states: seq<Owners>, steps: seq<Timed>, n: nat)
    requires IsRun(states, steps) && 0 < n <= |steps|
    ensures Inv(states[n], steps[n - 1].now)
    decreases n
  {
    var now := steps[n - 1].now;
    if n == 1 {
      assert Inv(NEW_OWNERS, now);
      StepKeepsInv(states[0], now, steps[0].step, now);
    } else {
      RunKeepsInv(states, steps, n - 1);
      StepKeepsInv(states[n - 1], steps[n - 2].now, steps[n - 1].step, now);
    }
  }

  /** In every run: the queue holds no job twice, `queued` names exactly the jobs waiting or being looked up,
      none of them has a good answer, and no object is looked up again before its last answer expires. */
  lemma NoWastedLookups(states: seq<Owners>, steps: seq<Timed>, n: nat)
    requires IsRun(states, steps) && 0 < n <= |steps|
    ensures QueueOk(states[n], steps[n - 1].now) && Spaced(states[n].history)
  {
    RunKeepsInv(states, steps, n);
  }
}
