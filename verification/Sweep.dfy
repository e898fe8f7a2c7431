/** The worker's sweep over the namespaces (main.go): each tick refreshes the stalest one, so every namespace has its
    turn, as long as fetching works. */
module Sweep {
  import opened Clock
  import opened Sequences

  /** When each namespace was last refreshed. */
  type Cache = map<string, Time>

  // ---- One tick ------------------------------------------------------------

  /** The first namespace without an entry; or, with entries for all, the first of the oldest. */
  ghost predicate IsStalest(cache: Cache, nss: seq<string>, s: string) {
    if nss == [] then s == "" else exists k: nat :: StalestAt(cache, nss, k) && nss[k] == s
  }

  ghost predicate StalestAt(cache: Cache, nss: seq<string>, k: nat) {
    && k < |nss|
    && (forall i :: 0 <= i < k ==> nss[i] in cache)
    && (nss[k] in cache ==> forall i :: 0 <= i < |nss| ==>
          nss[i] in cache && cache[nss[k]] <= cache[nss[i]] && (i < k ==> cache[nss[k]] < cache[nss[i]]))
  }

  /** The oldest of those looked at so far, all of them with an entry. */
  ghost predicate OldestSoFar(cache: Cache, nss: seq<string>, n: nat, stalest: string, time: Time) {
    && n <= |nss| && (forall i :: 0 <= i < n ==> nss[i] in cache)
    && (n == 0 ==> stalest == "")
    && (n > 0 ==> exists k: nat :: k < n && nss[k] == stalest && cache[stalest] == time
                                   && forall i :: 0 <= i < n ==>
                                       time <= cache[nss[i]] && (i < k ==> time < cache[nss[i]]))
  }

  method Stalest(cache: Cache, nss: seq<string>) returns (stalest: string)
    requires "" !in nss
    ensures IsStalest(cache, nss, stalest)
  {
    stalest := "";
    var time := ZERO_TIME;
    for n := 0 to |nss|
      invariant OldestSoFar(cache, nss, n, stalest, time)
    {
      var ns := nss[n];
      if ns !in cache {
        assert StalestAt(cache, nss, n);
        return ns;
      }
      assert n > 0 ==> stalest in nss;
      if stalest == "" || cache[ns] < time {
        stalest, time := ns, cache[ns];
      }
    }
    if nss != [] {
      var k: nat :| k < |nss| && nss[k] == stalest && cache[stalest] == time
                    && forall i :: 0 <= i < |nss| ==> time <= cache[nss[i]] && (i < k ==> time < cache[nss[i]]);
      assert StalestAt(cache, nss, k);
    }
  }

  /** The flag the page shows: as many entries as namespaces. */
  predicate ReadyOf(cache: Cache, nss: seq<string>) {
    |cache| >= |nss| > 0
  }

  /** What a fetch of one namespace's events comes to. */
  datatype Fetch = Fetch(ok: bool, now: Time)

  class Worker {
    var cache: Cache
    var ready: bool

    constructor ()
      ensures cache == map[] && !ready
    {
      cache, ready := map[], false;
    }

    method RefreshNamespace(ns: string, fetch: Fetch)
      modifies this`cache
      ensures cache == Refreshed(old(cache), ns, fetch)
    {
      if !fetch.ok {
        return;
      }
      cache := cache[ns := fetch.now];
    }

    /** One list call: the warning feed's when it is due, or the stalest namespace's. */
    method Tick(feedDue: bool, nss: seq<string>, fetch: Fetch) returns (picked: string)
      requires "" !in nss
      modifies this
      ensures feedDue || nss == [] ==> picked == "" && cache == old(cache) && ready == old(ready)
      ensures !feedDue && nss != [] ==>
                && IsStalest(old(cache), nss, picked)
                && cache == Refreshed(old(cache), picked, fetch) && ready == ReadyOf(cache, nss)
    {
      picked := "";
      if feedDue {
        return;
      }
      if |nss| == 0 {
        return;
      }
      picked := Stalest(cache, nss);
      assert picked in nss;
      RefreshNamespace(picked, fetch);
      ready := |cache| >= |nss| && |nss| > 0;
    }
  }

  function Refreshed(cache: Cache, ns: string, fetch: Fetch): Cache {
    if fetch.ok then cache[ns := fetch.now] else cache
  }

  /** In a list without repetition one namespace is the stalest. */
  lemma StalestUnique(cache: Cache, nss: seq<string>, s: string, t: string)
    requires IsStalest(cache, nss, s) && IsStalest(cache, nss, t)
    ensures s == t
  {
    if nss != [] {
      var k: nat :| StalestAt(cache, nss, k) && nss[k] == s;
      var l: nat :| StalestAt(cache, nss, l) && nss[l] == t;
    }
  }

  // ---- Runs of sweeps ------------------------------------------------------

  /** The ticks that go to a namespace; those of the feed leave the cache as it is. */
  ghost predicate IsRun(nss: seq<string>, caches: seq<Cache>, fetches: seq<Fetch>, picks: seq<string>) {
    && |caches| == |fetches| + 1 && |picks| == |fetches|
    && (forall i: nat {:trigger picks[i]} :: i < |picks| ==>
          IsStalest(caches[i], nss, picks[i]) && caches[i + 1] == Refreshed(caches[i], picks[i], fetches[i]))
    && (forall i, j :: 0 <= i < j < |fetches| ==> fetches[i].now < fetches[j].now)
    && (forall i: nat, x {:trigger fetches[i], caches[0][x]} :: i < |fetches| && x in caches[0] ==>
        caches[0][x] < fetches[i].now)
  }

  ghost predicate Never(picks: seq<string>, from: nat, to: nat, x: string) {
    forall d :: from <= d < to <= |picks| ==> picks[d] != x
  }

  /** An entry is that of the last pick, or from before the run. */
  lemma {:induction false} LastWritten(nss: seq<string>, caches: seq<Cache>, fetches: seq<Fetch>, picks: seq<string>,
                                       b: nat,
                                       x: string) returns (c: nat, picked: bool)
    requires IsRun(nss, caches, fetches, picks) && b <= |picks| && x in caches[b]
    requires forall i :: 0 <= i < |fetches| ==> fetches[i].ok
    ensures picked ==> c < b && picks[c] == x && caches[b][x] == fetches[c].now && Never(picks, c + 1, b, x)
    ensures !picked ==> x in caches[0] && caches[b][x] == caches[0][x] && Never(picks, 0, b, x)
  {
    if b == 0 {
      c, picked := 0, false;
    } else if picks[b - 1] == x {
      c, picked := b - 1, true;
    } else {
      assert caches[b] == Refreshed(caches[b - 1], picks[b - 1], fetches[b - 1]);
      c, picked := LastWritten(nss, caches, fetches, picks, b - 1, x);
    }
  }

  function Elements(xs: seq<string>): set<string> {
    set x | x in xs
  }

  lemma {:induction false} ElementsAtMost(xs: seq<string>)
    ensures |Elements(xs)| <= |xs|
    ensures Distinct(xs) ==> |Elements(xs)| == |xs|
  {
    if xs != [] {
      var n := |xs| - 1;
      ElementsAtMost(xs[..n]);
      assert xs == xs[..n] + [xs[n]];
      assert Elements(xs) == Elements(xs[..n]) + {xs[n]};
    }
  }

  /** Between two turns of one namespace all the others have theirs. */
  lemma OthersBetween(nss: seq<string>, caches: seq<Cache>, fetches: seq<Fetch>, picks: seq<string>, a: nat, b: nat)
    requires IsRun(nss, caches, fetches, picks) && forall i :: 0 <= i < |fetches| ==> fetches[i].ok
    requires a < b < |picks| && picks[a] == picks[b]
    ensures forall x :: x in nss && x != picks[b] ==> x in picks[a..b]
  {
    var s := picks[b];
    StillThere(nss, caches, fetches, picks, a, b);
    var c, picked := LastWritten(nss, caches, fetches, picks, b, s);
    assert picked && c >= a;
    forall x | x in nss && x != s ensures x in picks[a..b] {
      StalestOldest(caches[b], nss, s, x);
      var d, again := LastWritten(nss, caches, fetches, picks, b, x);
      assert again && d > c;
      assert picks[a..b][d - a] == x;
    }
  }

  lemma StalestOldest(cache: Cache, nss: seq<string>, s: string, x: string)
    requires IsStalest(cache, nss, s) && s in cache && x in nss
    ensures x in cache && cache[s] <= cache[x]
  {
    var k: nat :| StalestAt(cache, nss, k) && nss[k] == s;
    var i :| 0 <= i < |nss| && nss[i] == x;
  }

  lemma {:induction false} StillThere(nss: seq<string>, caches: seq<Cache>, fetches: seq<Fetch>, picks: seq<string>,
                                      a: nat, b: nat)
    requires IsRun(nss, caches, fetches, picks) && forall i :: 0 <= i < |fetches| ==> fetches[i].ok
    requires a < b <= |picks|
    ensures picks[a] in caches[b]
    decreases b
  {
    assert caches[b] == Refreshed(caches[b - 1], picks[b - 1], fetches[b - 1]);
    if a < b - 1 {
      StillThere(nss, caches, fetches, picks, a, b - 1);
    }
  }

  lemma TurnsApart(nss: seq<string>, caches: seq<Cache>, fetches: seq<Fetch>, picks: seq<string>, a: nat, b: nat)
    requires IsRun(nss, caches, fetches, picks) && Distinct(nss) && forall i :: 0 <= i < |fetches| ==> fetches[i].ok
    requires a < b < |picks| && picks[a] == picks[b]
    ensures b - a >= |nss|
  {
    OthersBetween(nss, caches, fetches, picks, a, b);
    var between := picks[a..b];
    assert between[0] == picks[b];
    forall x | x in Elements(nss) ensures x in Elements(between) {
    }
    ElementsAtMost(nss);
    ElementsAtMost(between);
    SubsetSize(Elements(nss), Elements(between));
  }

  /** While fetching works, any as many consecutive turns as there are namespaces are one turn for each. */
  lemma EveryNamespaceOnce(nss: seq<string>, caches: seq<Cache>, fetches: seq<Fetch>, picks: seq<string>, i: nat)
    requires IsRun(nss, caches, fetches, picks) && Distinct(nss) && forall i :: 0 <= i < |fetches| ==> fetches[i].ok
    requires i + |nss| <= |picks|
    ensures Permutes(picks[i..i + |nss|], nss)
  {
    var turns := picks[i..i + |nss|];
    forall a, b | 0 <= a < b < |turns| ensures turns[a] != turns[b] {
      if picks[i + a] == picks[i + b] {
        TurnsApart(nss, caches, fetches, picks, i + a, i + b);
      }
    }
    forall x | x in turns ensures x in nss {
      var a :| 0 <= a < |turns| && turns[a] == x;
      assert IsStalest(caches[i + a], nss, picks[i + a]);
    }
    ElementsAtMost(turns);
    ElementsAtMost(nss);
    SubsetSize(Elements(turns), Elements(nss));
    forall x ensures x in turns <==> x in nss {
      assert x in Elements(turns) <==> x in Elements(nss);
    }
    DistinctPermutes(turns, nss);
  }

  // ---- When fetching fails -------------------------------------------------

  lemma {:induction false} EntriesBefore(nss: seq<string>, caches: seq<Cache>, fetches: seq<Fetch>, picks: seq<string>,
                                         b: nat, i: nat)
    requires IsRun(nss, caches, fetches, picks) && b <= i < |picks|
    ensures forall x :: x in caches[b] ==> caches[b][x] < fetches[i].now
  {
    if b == 0 {
      forall x | x in caches[0] ensures caches[0][x] < fetches[i].now {
      }
    } else {
      EntriesBefore(nss, caches, fetches, picks, b - 1, i);
      assert caches[b] == Refreshed(caches[b - 1], picks[b - 1], fetches[b - 1]);
    }
  }

  /** With several namespaces, one has two turns in a row exactly when its first fetch failed. */
  lemma SameAgainExactly(nss: seq<string>, caches: seq<Cache>, fetches: seq<Fetch>, picks: seq<string>, i: nat)
    requires IsRun(nss, caches, fetches, picks) && Distinct(nss) && |nss| >= 2 && i + 1 < |picks|
    ensures picks[i + 1] == picks[i] <==> !fetches[i].ok
  {
    EntriesBefore(nss, caches, fetches, picks, i, i);
    assert IsStalest(caches[i], nss, picks[i]) && IsStalest(caches[i + 1], nss, picks[i + 1]);
    if !fetches[i].ok {
      StalestUnique(caches[i], nss, picks[i], picks[i + 1]);
    } else if picks[i + 1] == picks[i] {
      var x := if nss[0] == picks[i] then nss[1] else nss[0];
      StalestOldest(caches[i + 1], nss, picks[i], x);
    }
  }

  /** So a namespace whose fetches keep failing keeps all the others waiting. */
  lemma {:induction false} FailureStarves(nss: seq<string>, caches: seq<Cache>, fetches: seq<Fetch>,
                                          picks: seq<string>, a: nat,
                                          b: nat)
    requires IsRun(nss, caches, fetches, picks) && a <= b < |picks|
    requires forall i :: a <= i < b ==> !fetches[i].ok
    ensures picks[b] == picks[a] && caches[b] == caches[a]
    decreases b
  {
    if a < b {
      FailureStarves(nss, caches, fetches, picks, a, b - 1);
      assert caches[b] == Refreshed(caches[b - 1], picks[b - 1], fetches[b - 1]);
      assert IsStalest(caches[b], nss, picks[b]) && IsStalest(caches[b - 1], nss, picks[b - 1]);
      StalestUnique(caches[b], nss, picks[b - 1], picks[b]);
    }
  }

  // ---- Ready ---------------------------------------------------------------

  /** The flag counts entries, also those of namespaces that are gone: it is up exactly when at least as many
      entries are left over as are missing. */
  lemma ReadyExactly(cache: Cache, nss: seq<string>)
    requires Distinct(nss) && nss != []
    ensures ReadyOf(cache, nss) <==> |Elements(nss) - cache.Keys| <= |cache.Keys - Elements(nss)|
  {
    var n, k := Elements(nss), cache.Keys;
    ElementsAtMost(nss);
    assert n == (n - k) + (n * k) && k == (k - n) + (n * k);
  }

  ghost predicate AllLoaded(cache: Cache, nss: seq<string>) {
    forall ns :: ns in nss ==> ns in cache
  }

  /** So it is up whenever every namespace has been loaded, and up although some has not exactly when enough entries
      are left over. */
  lemma ReadyIsUntrueExactly(cache: Cache, nss: seq<string>)
    requires Distinct(nss) && nss != []
    ensures AllLoaded(cache, nss) ==> ReadyOf(cache, nss)
    ensures ReadyOf(cache, nss) && !AllLoaded(cache, nss) <==>
            0 < |Elements(nss) - cache.Keys| <= |cache.Keys - Elements(nss)|
  {
    ReadyExactly(cache, nss);
    var missing := Elements(nss) - cache.Keys;
    if AllLoaded(cache, nss) {
      assert missing == {};
    } else {
      var ns :| ns in nss && ns !in cache;
      assert ns in missing;
    }
  }

  /** A namespace that is gone and a new one that could not be loaded: ready all the same. */
  lemma ReadyWithoutLoading(gone: string, added: string, t: Time)
    requires gone != added
    ensures var cache := Refreshed(map[gone := t], added, Fetch(false, t));
            IsStalest(map[gone := t], [added], added) && ReadyOf(cache, [added]) && !AllLoaded(cache, [added])
  {
    assert StalestAt(map[gone := t], [added], 0);
    assert added in [added];
  }
}
