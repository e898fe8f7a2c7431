/** The mutex-guarded owner state of owners.go, method by method. */
module OwnerCache {
  import opened Clock
  import opened Groups
  import opened Owners
  import opened OwnerChains
  import opened Sequences

  class OwnerState {
    var known: Known
    var kindOf: Kinds
    var queue: seq<Key>
    var queued: set<Key>
    ghost var taken: map<Key, Time>
    ghost var history: seq<Lookup>

    ghost function Contents(): Owners
      reads this
    {
      Owners(known, kindOf, queue, queued, taken, history)
    }

    constructor ()
      ensures Contents() == NEW_OWNERS
    {
      known, kindOf, queue, queued, taken, history := map[], map[], [], {}, map[], [];
    }

    /** The chain from an object up to its top-level owner, and whether it must still be confirmed. */
    method OwnerChain(ns: string, obj: ObjRef, now: Time) returns (chain: seq<ObjRef>, inferred: bool)
      ensures chain == ChainOf(known, kindOf, ns, obj, now) && inferred == Inferred(known, kindOf, ns, obj, now)
    {
      chain, inferred := Walk(ns, obj, now);
      if |chain| > 1 {
        var top := chain[|chain| - 1];
        if !IsFresh(known, KeyOf(ns, top), now) {
          inferred := true;
        }
      }
    }

    method Walk(ns: string, obj: ObjRef, now: Time) returns (chain: seq<ObjRef>, inferred: bool)
      ensures chain == ChainOf(known, kindOf, ns, obj, now)
      ensures inferred == AnyGuess(LinkAt(known, kindOf, ns, now), obj, OWNER_MAX_DEPTH)
    {
      chain, inferred := Follow(LinkAt(known, kindOf, ns, now), obj);
    }

    static method Follow(link: ObjRef -> Link, obj: ObjRef) returns (chain: seq<ObjRef>, inferred: bool)
      ensures chain == Climb(link, obj, OWNER_MAX_DEPTH) && inferred == AnyGuess(link, obj, OWNER_MAX_DEPTH)
    {
      chain, inferred := [obj], false;
      var cur := obj;
      ghost var below: seq<ObjRef> := [];
      for i := 0 to OWNER_MAX_DEPTH
        invariant chain == below + [cur]
        invariant below + Climb(link, cur, OWNER_MAX_DEPTH - i) == Climb(link, obj, OWNER_MAX_DEPTH)
        invariant (inferred || AnyGuess(link, cur, OWNER_MAX_DEPTH - i)) == AnyGuess(link, obj, OWNER_MAX_DEPTH)
      {
        ClimbStep(link, below, cur, OWNER_MAX_DEPTH - i);
        match link(cur)
        case Top =>
          return;
        case Answered(p) =>
          below, cur := chain, p;
          chain := chain + [cur];
        case Guessed(p) =>
          inferred := true;
          below, cur := chain, p;
          chain := chain + [cur];
      }
    }

    /** Queues the first link that is not settled; false when the chain cannot be confirmed this way. */
    method RequestOwnerConfirmation(ns: string, chain: seq<ObjRef>, now: Time) returns (ok: bool)
      modifies this
      ensures Contents() == Requested(old(Contents()), ns, chain, now)
      ensures ok == Confirmable(old(known), ns, chain, now)
    {
      for i := 0 to |chain|
        invariant Contents() == old(Contents())
        invariant Confirmed(known, ns, chain, now) == i + Confirmed(known, ns, chain[i..], now)
      {
        var node := chain[i];
        var key := KeyOf(ns, node);
        assert chain[i..][1..] == chain[i + 1..];
        if IsFresh(known, key, now) {
          if known[key].missing {
            return false;
          }
          continue;
        }
        if node.kind == "" {
          return false;
        }
        if key !in queued && |queue| < OWNER_QUEUE_MAX {
          queue := queue + [key];
          queued := queued + {key};
        }
        return true;
      }
      ok := true;
    }

    method RequestRootLookup(ns: string, root: ObjRef, now: Time)
      modifies this
      ensures Contents() == EnqueueFirst(old(Contents()), KeyOf(ns, root), now)
    {
      var key := KeyOf(ns, root);
      if IsFresh(known, key, now) || key in queued {
        return;
      }
      queue := [key] + queue;
      queued := queued + {key};
    }

    method TakeJob(now: Time) returns (job: Key)
      requires queue != []
      modifies this
      ensures Contents() == TakenFirst(old(Contents()), now) && job == old(queue)[0]
    {
      job := queue[0];
      queue := queue[1..];
      taken := taken[job := now];
    }

    method TakeQueue(now: Time) returns (jobs: seq<Key>)
      modifies this
      ensures Contents() == TakenAll(old(Contents()), now) && jobs == old(queue)
    {
      jobs := queue;
      taken := taken + map k | k in queue :: now;
      queue := [];
    }

    method ForgetJob(job: Key)
      modifies this
      ensures Contents() == Forgotten(old(Contents()), job)
    {
      queued := queued - {job};
      taken := taken - {job};
    }

    method Purge(now: Time)
      modifies this`known
      ensures known == Purged(old(known), now)
    {
      if |known| < OWNER_KNOWN_MAX {
        return;
      }
      var keys := IterationOrder(known.Keys);
      for i := 0 to |keys|
        invariant forall k :: k in known <==> k in old(known) && (Fresh(old(known)[k], now) || k !in keys[..i])
        invariant forall k :: k in known ==> known[k] == old(known)[k]
      {
        var k := keys[i];
        assert keys[..i + 1] == keys[..i] + [k] && k in keys;
        if k in known && !Fresh(known[k], now) {
          known := known - {k};
        }
      }
      assert keys[..|keys|] == keys;
    }

    /** Stores an answer and queues the owner it names, ahead of everything else. */
    method RecordAnswer(job: Key, entry: Entry, now: Time)
      modifies this
      ensures Contents() == Recorded(old(Contents()), job, entry, now)
    {
      Purge(now);
      known := known[job := entry];
      queued := queued - {job};
      taken, history := taken - {job}, history + [Lookup(job, entry.at, entry.missing)];
      if entry.parent.name == "" {
        return;
      }
      kindOf := kindOf[(job.ns, entry.parent.name) := entry.parent.kind];
      var parent := KeyOf(job.ns, entry.parent);
      if !IsFresh(known, parent, now) && parent !in queued {
        queue := [parent] + queue;
        queued := queued + {parent};
      }
    }
  }
}
