/** Walking an object's owners (owners.go): what a chain says, and why resolving its links settles it. */
module OwnerChains {
  import opened Clock
  import opened Groups
  import opened Names
  import opened Owners

  type Kinds = map<(string, string), string>

  datatype Link = Top | Answered(parent: ObjRef) | Guessed(parent: ObjRef)

  function KnownLink(parent: ObjRef): Link {
    if parent.name == "" then Top else Answered(parent)
  }

  /** The next owner up: the API's answer while it is good, and otherwise what the name suggests. */
  function LinkOf(known: Known, kindOf: Kinds, ns: string, o: ObjRef, now: Time): Link {
    if Settled(known, ns, o, now) then
      KnownLink(known[KeyOf(ns, o)].parent)
    else match InferParent(o.kind, o.name)
         case None => Top
         case Some(p) => Guessed(if (ns, p.name) in kindOf then ObjRef(kindOf[(ns, p.name)], p.name) else p)
  }

  function LinkAt(known: Known, kindOf: Kinds, ns: string, now: Time): ObjRef -> Link {
    o => LinkOf(known, kindOf, ns, o, now)
  }

  /** The chain from o, at most depth links long. */
  function Climb(link: ObjRef -> Link, o: ObjRef, depth: nat): (chain: seq<ObjRef>)
    ensures 1 <= |chain| <= depth + 1 && chain[0] == o
    decreases depth
  {
    if depth == 0 then [o]
    else match link(o)
         case Top => [o]
         case Answered(p) => [o] + Climb(link, p, depth - 1)
         case Guessed(p) => [o] + Climb(link, p, depth - 1)
  }

  /** Whether a link of the climb was guessed. */
  predicate AnyGuess(link: ObjRef -> Link, o: ObjRef, depth: nat)
    decreases depth
  {
    depth > 0 &&
    match link(o)
    case Top => false
    case Answered(p) => AnyGuess(link, p, depth - 1)
    case Guessed(_) => true
  }

  lemma ClimbStep(link: ObjRef -> Link, below: seq<ObjRef>, o: ObjRef, depth: nat)
    requires depth > 0
    ensures match link(o)
            case Top => below + Climb(link, o, depth) == below + [o] && !AnyGuess(link, o, depth)
            case Answered(p) => below + Climb(link, o, depth) == (below + [o]) + Climb(link, p, depth - 1)
                                && AnyGuess(link, o, depth) == AnyGuess(link, p, depth - 1)
            case Guessed(p) => below + Climb(link, o, depth) == (below + [o]) + Climb(link, p, depth - 1)
                               && AnyGuess(link, o, depth)
  {
  }

  function ChainOf(known: Known, kindOf: Kinds, ns: string, o: ObjRef, now: Time): seq<ObjRef> {
    Climb(LinkAt(known, kindOf, ns, now), o, OWNER_MAX_DEPTH)
  }

  predicate Inferred(known: Known, kindOf: Kinds, ns: string, o: ObjRef, now: Time) {
    var chain := ChainOf(known, kindOf, ns, o, now);
    AnyGuess(LinkAt(known, kindOf, ns, now), o, OWNER_MAX_DEPTH)
    || (|chain| > 1 && !IsFresh(known, KeyOf(ns, chain[|chain| - 1]), now))
  }

  // ---- What "not inferred" means -------------------------------------------

  /** The chain's i-th link is a good API answer. */
  predicate LinkKnown(known: Known, ns: string, chain: seq<ObjRef>, i: nat, now: Time)
    requires i + 1 < |chain|
  {
    Settled(known, ns, chain[i], now) && known[KeyOf(ns, chain[i])].parent == chain[i + 1]
  }

  predicate AllKnown(known: Known, ns: string, chain: seq<ObjRef>, now: Time) {
    |chain| <= 1 || (LinkKnown(known, ns, chain, 0, now) && AllKnown(known, ns, chain[1..], now))
  }

  lemma {:induction false} AllKnownMeans(known: Known, ns: string, chain: seq<ObjRef>, now: Time)
    ensures AllKnown(known, ns, chain, now) <==>
            forall i {:trigger LinkKnown(known, ns, chain, i, now)} :: 0 <= i < |chain| - 1 ==>
                LinkKnown(known, ns, chain, i, now)
  {
    if |chain| > 1 {
      var rest := chain[1..];
      AllKnownMeans(known, ns, rest, now);
      forall i: nat | i < |rest| - 1
        ensures LinkKnown(known, ns, rest, i, now) == LinkKnown(known, ns, chain, i + 1, now)
      {
      }
      if AllKnown(known, ns, chain, now) {
        forall i | 0 <= i < |chain| - 1 ensures LinkKnown(known, ns, chain, i, now) {
          assert i == 0 || LinkKnown(known, ns, rest, i - 1, now);
        }
      }
    }
  }

  /** Links that follow the good answers of the cache. */
  ghost predicate Obeys(link: ObjRef -> Link, known: Known, ns: string, now: Time) {
    forall o {:trigger link(o)} ::
      if Settled(known, ns, o, now) then link(o) == KnownLink(known[KeyOf(ns, o)].parent) else !link(o).Answered?
  }

  lemma LinkAtObeys(known: Known, kindOf: Kinds, ns: string, now: Time)
    ensures Obeys(LinkAt(known, kindOf, ns, now), known, ns, now)
  {
  }

  lemma {:induction false} NoGuessExactly(link: ObjRef -> Link, known: Known, ns: string, o: ObjRef, depth: nat,
        now: Time)
    requires Obeys(link, known, ns, now)
    ensures !AnyGuess(link, o, depth) <==> AllKnown(known, ns, Climb(link, o, depth), now)
    decreases depth
  {
    if depth > 0 && link(o).Answered? {
      var rest := Climb(link, link(o).parent, depth - 1);
      NoGuessExactly(link, known, ns, link(o).parent, depth - 1, now);
      assert ([o] + rest)[1..] == rest;
    }
  }

  /** A chain is not marked inferred exactly when it is the object alone, or every link is a good API answer
      and the top's own lookup is good too, even one that found nothing. */
  lemma NotInferredExactly(known: Known, kindOf: Kinds, ns: string, o: ObjRef, now: Time)
    ensures var chain := ChainOf(known, kindOf, ns, o, now);
            !Inferred(known, kindOf, ns, o, now) <==>
              || |chain| == 1
              || (&& (forall i {:trigger LinkKnown(known, ns, chain, i, now)} :: 0 <= i < |chain| - 1 ==>
                  LinkKnown(known, ns, chain, i, now))
                  && IsFresh(known, KeyOf(ns, chain[|chain| - 1]), now))
  {
    LinkAtObeys(known, kindOf, ns, now);
    NoGuessExactly(LinkAt(known, kindOf, ns, now), known, ns, o, OWNER_MAX_DEPTH, now);
    AllKnownMeans(known, ns, ChainOf(known, kindOf, ns, o, now), now);
  }

  // ---- Progress ------------------------------------------------------------

  /** Nothing good expires or changes between two readings. */
  ghost predicate Keeps(known: Known, now: Time, later: Known, now': Time) {
    forall k {:trigger IsFresh(known, k, now)} :: IsFresh(known, k, now) && !known[k].missing ==>
      IsFresh(later, k, now') && later[k] == known[k]
  }

  lemma {:induction false} ConfirmedAtLeast(known: Known, ns: string, chain: seq<ObjRef>, now: Time, n: nat)
    requires n <= |chain| && forall i :: 0 <= i < n ==> Settled(known, ns, chain[i], now)
    ensures Confirmed(known, ns, chain, now) >= n
  {
    if n > 0 {
      ConfirmedAtLeast(known, ns, chain[1..], now, n - 1);
    }
  }

  /** The settled part of a chain, and the link after it, stay as they are while nothing expires. */
  lemma {:induction false} SettledPrefixStays(link: ObjRef -> Link, known: Known, now: Time, link': ObjRef -> Link,
        later: Known, now': Time,
                                              ns: string, o: ObjRef, depth: nat, n: nat)
    requires Obeys(link, known, ns, now) && Obeys(link', later, ns, now') && Keeps(known, now, later, now')
    requires n < |Climb(link, o, depth)|
    requires forall i :: 0 <= i < n ==> Settled(known, ns, Climb(link, o, depth)[i], now)
    ensures n < |Climb(link', o, depth)|
    ensures Climb(link', o, depth)[..n + 1] == Climb(link, o, depth)[..n + 1]
    decreases depth
  {
    var chain := Climb(link, o, depth);
    if n > 0 {
      assert Settled(known, ns, chain[0], now) && IsFresh(known, KeyOf(ns, o), now);
      var p := known[KeyOf(ns, o)].parent;
      var rest := Climb(link, p, depth - 1);
      assert chain == [o] + rest;
      forall i | 0 <= i < n - 1 ensures Settled(known, ns, rest[i], now) {
        assert rest[i] == chain[i + 1];
      }
      SettledPrefixStays(link, known, now, link', later, now', ns, p, depth - 1, n - 1);
      assert Climb(link', o, depth) == [o] + Climb(link', p, depth - 1);
      var rest' := Climb(link', p, depth - 1);
      assert ([o] + rest')[..n + 1] == [o] + rest'[..n] && ([o] + rest)[..n + 1] == [o] + rest[..n];
    }
  }

  /** Resolving a chain's first open link strictly lengthens its confirmed part. */
  lemma ResolvingLengthens(known: Known, kindOf: Kinds, now: Time, later: Known, kindOf': Kinds, now': Time,
                           ns: string, o: ObjRef)
    requires Keeps(known, now, later, now')
    requires var chain := ChainOf(known, kindOf, ns, o, now);
             var n := Confirmed(known, ns, chain, now);
             n < |chain| && Settled(later, ns, chain[n], now')
    ensures Confirmed(later, ns, ChainOf(later, kindOf', ns, o, now'), now') > Confirmed(known, ns,
        ChainOf(known, kindOf, ns, o, now), now)
  {
    var chain, chain' := ChainOf(known, kindOf, ns, o, now), ChainOf(later, kindOf', ns, o, now');
    var n := Confirmed(known, ns, chain, now);
    LinkAtObeys(known, kindOf, ns, now);
    LinkAtObeys(later, kindOf', ns, now');
    SettledPrefixStays(LinkAt(known, kindOf, ns, now), known, now, LinkAt(later, kindOf', ns, now'), later, now', ns,
        o, OWNER_MAX_DEPTH, n);
    PrefixSettled(known, now, later, now', ns, chain, chain', n);
    ConfirmedAtLeast(later, ns, chain', now', n + 1);
  }

  lemma PrefixSettled(known: Known, now: Time, later: Known, now': Time, ns: string, chain: seq<ObjRef>,
                      chain': seq<ObjRef>, n: nat)
    requires Keeps(known, now, later, now') && n < |chain| && n < |chain'| && chain'[..n + 1] == chain[..n + 1]
    requires forall i :: 0 <= i < n ==> Settled(known, ns, chain[i], now)
    requires Settled(later, ns, chain[n], now')
    ensures forall i :: 0 <= i < n + 1 ==> Settled(later, ns, chain'[i], now')
  {
    forall i | 0 <= i < n + 1 ensures Settled(later, ns, chain'[i], now') {
      assert chain'[i] == chain'[..n + 1][i] == chain[i];
      if i < n {
        assert Settled(known, ns, chain[i], now) && IsFresh(known, KeyOf(ns, chain[i]), now);
      }
    }
  }

  /** A confirmed chain stays as it is. */
  lemma ConfirmedStays(known: Known, kindOf: Kinds, now: Time, later: Known, kindOf': Kinds, now': Time, ns: string,
                       o: ObjRef)
    requires Keeps(known, now, later, now')
    requires Confirmed(known, ns, ChainOf(known, kindOf, ns, o, now), now) == |ChainOf(known, kindOf, ns, o, now)|
    ensures ChainOf(later, kindOf', ns, o, now') == ChainOf(known, kindOf, ns, o, now)
    ensures Confirmed(later, ns, ChainOf(known, kindOf, ns, o, now), now') == |ChainOf(known, kindOf, ns, o, now)|
  {
    var chain := ChainOf(known, kindOf, ns, o, now);
    LinkAtObeys(known, kindOf, ns, now);
    LinkAtObeys(later, kindOf', ns, now');
    FullyConfirmedStays(LinkAt(known, kindOf, ns, now), known, now, LinkAt(later, kindOf', ns, now'), later, now', ns,
        o, OWNER_MAX_DEPTH);
    forall i | 0 <= i < |chain| ensures Settled(later, ns, chain[i], now') {
      assert Settled(known, ns, chain[i], now) && IsFresh(known, KeyOf(ns, chain[i]), now);
    }
    ConfirmedAtLeast(later, ns, chain, now', |chain|);
  }

  lemma {:induction false} FullyConfirmedStays(link: ObjRef -> Link, known: Known, now: Time, link': ObjRef -> Link,
        later: Known, now': Time,
                                               ns: string, o: ObjRef, depth: nat)
    requires Obeys(link, known, ns, now) && Obeys(link', later, ns, now') && Keeps(known, now, later, now')
    requires forall i :: 0 <= i < |Climb(link, o, depth)| ==> Settled(known, ns, Climb(link, o, depth)[i], now)
    ensures Climb(link', o, depth) == Climb(link, o, depth)
    decreases depth
  {
    var chain := Climb(link, o, depth);
    assert Settled(known, ns, chain[0], now) && IsFresh(known, KeyOf(ns, o), now);
    if depth > 0 {
      var p := known[KeyOf(ns, o)].parent;
      if p.name != "" {
        var rest := Climb(link, p, depth - 1);
        assert chain == [o] + rest;
        forall i | 0 <= i < |rest| ensures Settled(known, ns, rest[i], now) {
          assert rest[i] == chain[i + 1];
        }
        FullyConfirmedStays(link, known, now, link', later, now', ns, p, depth - 1);
      }
    }
  }

  /** A reading of the cache. */
  datatype View = View(known: Known, kindOf: Kinds, now: Time)

  function ViewChain(v: View, ns: string, o: ObjRef): seq<ObjRef> {
    ChainOf(v.known, v.kindOf, ns, o, v.now)
  }

  function ViewConfirmed(v: View, ns: string, o: ObjRef): nat {
    Confirmed(v.known, ns, ViewChain(v, ns, o), v.now)
  }

  /** From one reading to the next nothing expires, and the link queued for the chain was looked up and found. */
  ghost predicate Resolves(v: View, w: View, ns: string, o: ObjRef) {
    && Keeps(v.known, v.now, w.known, w.now)
    && (ViewConfirmed(v, ns, o) < |ViewChain(v, ns, o)| ==>
        Settled(w.known, ns, ViewChain(v, ns, o)[ViewConfirmed(v, ns, o)], w.now))
  }

  lemma ResolvesStep(v: View, w: View, ns: string, o: ObjRef)
    requires Resolves(v, w, ns, o)
    ensures ViewConfirmed(w, ns, o) > ViewConfirmed(v, ns, o) || ViewConfirmed(w, ns, o) == |ViewChain(w, ns, o)|
    ensures ViewConfirmed(v, ns, o) == |ViewChain(v, ns, o)| ==> ViewConfirmed(w, ns, o) == |ViewChain(w, ns, o)|
  {
    if ViewConfirmed(v, ns, o) < |ViewChain(v, ns, o)| {
      ResolvingLengthens(v.known, v.kindOf, v.now, w.known, w.kindOf, w.now, ns, o);
    } else {
      ConfirmedStays(v.known, v.kindOf, v.now, w.known, w.kindOf, w.now, ns, o);
    }
  }

  /** Counts that grow at every step, unless they have reached their bound, as far as there are steps. */
  lemma {:induction false} StepsAddUp(counts: seq<nat>, bounds: seq<nat>, n: nat)
    requires n < |counts| == |bounds|
    requires forall i {:trigger counts[i]} :: 0 <= i < |counts| - 1 ==>
               if counts[i] == bounds[i] then counts[i + 1] == bounds[i + 1]
                   else counts[i + 1] > counts[i] || counts[i + 1] == bounds[i + 1]
    ensures counts[n] >= n || counts[n] == bounds[n]
  {
    if n > 0 {
      StepsAddUp(counts, bounds, n - 1);
      var i := n - 1;
      assert counts[i] >= i || counts[i] == bounds[i];
    }
  }

  /** Whatever is known at first, after one lookup more than the depth limit every chain is confirmed. */
  lemma FiveLookupsConfirm(vs: seq<View>, ns: string, o: ObjRef)
    requires |vs| == OWNER_MAX_DEPTH + 2
    requires forall i {:trigger vs[i]} :: 0 <= i < |vs| - 1 ==> Resolves(vs[i], vs[i + 1], ns, o)
    ensures var v := vs[OWNER_MAX_DEPTH + 1];
            !Inferred(v.known, v.kindOf, ns, o, v.now)
  {
    var counts: seq<nat> := seq(|vs|, i requires 0 <= i < |vs| => ViewConfirmed(vs[i], ns, o));
    var bounds: seq<nat> := seq(|vs|, i requires 0 <= i < |vs| => |ViewChain(vs[i], ns, o)|);
    forall i | 0 <= i < |vs| - 1
      ensures if counts[i] == bounds[i] then counts[i + 1] == bounds[i + 1]
          else counts[i + 1] > counts[i] || counts[i + 1] == bounds[i + 1]
    {
      ResolvesStep(vs[i], vs[i + 1], ns, o);
    }
    StepsAddUp(counts, bounds, OWNER_MAX_DEPTH + 1);
    ConfirmedNotInferred(vs[OWNER_MAX_DEPTH + 1], ns, o);
  }

  lemma ConfirmedNotInferred(v: View, ns: string, o: ObjRef)
    requires ViewConfirmed(v, ns, o) == |ViewChain(v, ns, o)|
    ensures !Inferred(v.known, v.kindOf, ns, o, v.now)
  {
    LinkAtObeys(v.known, v.kindOf, ns, v.now);
    AllSettledNoGuess(LinkAt(v.known, v.kindOf, ns, v.now), v.known, ns, o, OWNER_MAX_DEPTH, v.now);
    var chain := ViewChain(v, ns, o);
    assert Settled(v.known, ns, chain[|chain| - 1], v.now);
  }

  lemma {:induction false} AllSettledNoGuess(link: ObjRef -> Link, known: Known, ns: string, o: ObjRef, depth: nat,
        now: Time)
    requires Obeys(link, known, ns, now)
    requires forall i :: 0 <= i < |Climb(link, o, depth)| ==> Settled(known, ns, Climb(link, o, depth)[i], now)
    ensures !AnyGuess(link, o, depth)
    decreases depth
  {
    var chain := Climb(link, o, depth);
    assert Settled(known, ns, chain[0], now);
    if depth > 0 {
      var p := known[KeyOf(ns, o)].parent;
      if p.name != "" {
        var rest := Climb(link, p, depth - 1);
        assert chain == [o] + rest;
        forall i | 0 <= i < |rest| ensures Settled(known, ns, rest[i], now) {
          assert rest[i] == chain[i + 1];
        }
        AllSettledNoGuess(link, known, ns, p, depth - 1, now);
      }
    }
  }

  /** Recording an answer that found its object is such a lookup: it settles the link and forgets nothing good. */
  lemma RecordingResolves(s: Owners, k: Key, e: Entry, now: Time)
    requires Inv(s, now) && Enabled(s, Record(k, e), now) && !e.missing && Fresh(e, now)
    ensures Keeps(s.known, now, Recorded(s, k, e, now).known, now)
    ensures Settled(Recorded(s, k, e, now).known, k.ns, ObjRef(k.kind, k.name), now)
  {
    assert k in s.queued && !IsFresh(s.known, k, now);
  }
}
