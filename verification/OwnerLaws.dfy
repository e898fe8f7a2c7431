/** The queue of owner lookups, told by its own fields (owners.go): which link of a chain is asked for, what goes first,
    and what the cache keeps. */
module OwnerLaws {
  import opened Clock
  import opened Groups
  import opened Owners

  /** An answer is good for half an hour when it found its object, and for five minutes when it did not. */
  ghost predicate Good(known: Known, k: Key, now: Time) {
    k in known && now - known[k].at < if known[k].missing then 300_000_000_000 else 1_800_000_000_000
  }

  ghost predicate Found(known: Known, k: Key, now: Time) {
    Good(known, k, now) && !known[k].missing
  }

  lemma GoodExactly(known: Known, k: Key, now: Time)
    ensures Good(known, k, now) <==> IsFresh(known, k, now)
  {
  }

  // ---- What a chain asks for -----------------------------------------------

  /** The first object of the chain whose answer is not good, or did not find it. */
  ghost predicate FirstOpen(known: Known, ns: string, chain: seq<ObjRef>, now: Time, n: nat) {
    && n < |chain| && !Found(known, Key(ns, chain[n].kind, chain[n].name), now)
    && forall i :: 0 <= i < n ==> Found(known, Key(ns, chain[i].kind, chain[i].name), now)
  }

  lemma OpenExactly(known: Known, ns: string, chain: seq<ObjRef>, now: Time, n: nat)
    ensures FirstOpen(known, ns, chain, now, n) <==> n < |chain| && n == Confirmed(known, ns, chain, now)
  {
    var m := Confirmed(known, ns, chain, now);
    forall i | 0 <= i < |chain|
      ensures Found(known, Key(ns, chain[i].kind, chain[i].name), now) <==> Settled(known, ns, chain[i], now)
    {
      GoodExactly(known, KeyOf(ns, chain[i]), now);
    }
  }

  /** A chain all of whose objects were found asks for nothing. Otherwise its first open object goes to the back of the
      queue, unless it is there, is being looked up, or two hundred wait; and when it is known to be missing, or nobody
      knows its kind, the chain cannot be confirmed. */
  lemma ConfirmExactly(s: Owners, ns: string, chain: seq<ObjRef>, now: Time, n: nat)
    ensures (forall i :: 0 <= i < |chain| ==> Found(s.known, Key(ns, chain[i].kind, chain[i].name), now)) ==>
              Requested(s, ns, chain, now) == s && Confirmable(s.known, ns, chain, now)
    ensures FirstOpen(s.known, ns, chain, now, n) ==>
              var k := Key(ns, chain[n].kind, chain[n].name);
              && (Confirmable(s.known, ns, chain, now) <==> !Good(s.known, k, now) && chain[n].kind != "")
              && Requested(s, ns, chain, now).queue ==
                 s.queue + if Confirmable(s.known, ns, chain, now) && k !in s.queued && |s.queue| < 200 then [k] else []
  {
    var m := Confirmed(s.known, ns, chain, now);
    OpenExactly(s.known, ns, chain, now, m);
    OpenExactly(s.known, ns, chain, now, n);
    if m < |chain| {
      GoodExactly(s.known, KeyOf(ns, chain[m]), now);
    }
  }

  // ---- What goes first -----------------------------------------------------

  /** A root goes before all others, unless it waits, is being looked up, or has a good answer. */
  lemma RootGoesFirst(s: Owners, ns: string, root: ObjRef, now: Time)
    ensures var k := Key(ns, root.kind, root.name);
            Next(s, LookupRoot(ns, root), now).queue ==
            (if k !in s.queued && !Good(s.known, k, now) then [k] else []) + s.queue
  {
    GoodExactly(s.known, KeyOf(ns, root), now);
  }

  /** An answer's owner does too. */
  lemma OwnerGoesFirst(s: Owners, k: Key, e: Entry, now: Time)
    requires Enabled(s, Record(k, e), now)
    ensures var r, p := Next(s, Record(k, e), now), Key(k.ns, e.parent.kind, e.parent.name);
            r.queue == (if e.parent.name != "" && (p == k || p !in s.queued) && !Good(r.known, p, now) then [p]
                else []) + s.queue
    ensures e.parent.name != "" ==> (k.ns, e.parent.name) in Next(s, Record(k, e), now).kindOf
                                    && Next(s, Record(k, e), now).kindOf[(k.ns, e.parent.name)] == e.parent.kind
  {
    GoodExactly(Answered(s, k, e, now).known, KeyOf(k.ns, e.parent), now);
  }

  /** The job taken is the first of the queue, and the others move up. */
  lemma FirstIsTaken(s: Owners, now: Time)
    requires Enabled(s, Take, now)
    ensures s.queue == [s.queue[0]] + Next(s, Take, now).queue && s.queue[0] in Next(s, Take, now).taken
  {
  }

  // ---- What the cache keeps ------------------------------------------------

  /** An answer is kept as it is; the others stay, except that a full cache drops those that are not good any more. */
  lemma CacheExactly(s: Owners, k: Key, e: Entry, now: Time, j: Key)
    requires Enabled(s, Record(k, e), now)
    ensures var known := Next(s, Record(k, e), now).known;
            && k in known && known[k] == e
            && (j != k ==>
                  && (j in known <==> j in s.known && (|s.known| < 5000 || Good(s.known, j, now)))
                  && (j in known ==> known[j] == s.known[j]))
  {
    GoodExactly(s.known, j, now);
  }

  // ---- Over every run ------------------------------------------------------

  /** In every run an object that was found is not looked up again for half an hour, and one that was missing not for
      five minutes. */
  lemma LookupsApart(states: seq<Owners>, steps: seq<Timed>, n: nat, i: nat, j: nat)
    requires IsRun(states, steps) && 0 < n <= |steps| && i < j < |states[n].history|
    requires states[n].history[i].key == states[n].history[j].key
    ensures var first, next := states[n].history[i], states[n].history[j];
            next.at - first.at >= if first.missing then 300_000_000_000 else 1_800_000_000_000
  {
    NoWastedLookups(states, steps, n);
  }
}
