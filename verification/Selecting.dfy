/** Choosing the log lines and events a trimmed prompt keeps (brief.go, rca.go). */
module Selecting {
  import opened Sequences
  import opened Clock
  import opened Events

  /** The elements at the positions in `keep`, in their order. */
  function Select<T>(xs: seq<T>, keep: set<nat>): seq<T> {
    if xs == [] then []
    else if |xs| - 1 in keep then Select(xs[..|xs| - 1], keep) + [xs[|xs| - 1]]
    else Select(xs[..|xs| - 1], keep)
  }

  function Span(lo: nat, hi: nat): (s: set<nat>)
    requires lo <= hi
    ensures forall i: nat :: i in s <==> lo <= i < hi
    ensures |s| == hi - lo
    decreases hi - lo
  {
    if lo == hi then {} else Span(lo + 1, hi) + {lo}
  }

  function Below(n: nat): (s: set<nat>)
    ensures forall i: nat :: i in s <==> i < n
    ensures |s| == n
  {
    Span(0, n)
  }

  lemma SelectOutside<T>(xs: seq<T>, keep: set<nat>, x: nat)
    requires x >= |xs|
    ensures Select(xs, keep + {x}) == Select(xs, keep)
  {
  }

  /** Keeping one more position adds what is there to every total. */
  lemma {:induction false} SelectMore<T>(xs: seq<T>, keep: set<nat>, x: nat, f: T -> int)
    requires x < |xs| && x !in keep
    ensures SumBy(Select(xs, keep + {x}), f) == SumBy(Select(xs, keep), f) + f(xs[x])
    ensures |Select(xs, keep + {x})| == |Select(xs, keep)| + 1
  {
    var n := |xs| - 1;
    var front := xs[..n];
    if x == n {
      SelectOutside(front, keep, x);
      SumByAppend(Select(front, keep), f, xs[n]);
    } else {
      SelectMore(front, keep, x, f);
      SumByAppend(Select(front, keep), f, xs[n]);
      SumByAppend(Select(front, keep + {x}), f, xs[n]);
    }
  }

  lemma {:induction false} SelectSize<T>(xs: seq<T>, keep: set<nat>)
    ensures |Select(xs, keep)| == |keep * Below(|xs|)|
  {
    if xs != [] {
      var n := |xs| - 1;
      SelectSize(xs[..n], keep);
      KeptBelow(keep, n);
    }
  }

  lemma KeptBelow(keep: set<nat>, n: nat)
    ensures |keep * Below(n + 1)| == |keep * Below(n)| + if n in keep then 1 else 0
  {
    var a, b := keep * Below(n), keep * Below(n + 1);
    if n in keep {
      assert n !in a && forall i :: i in b <==> i in a || i == n;
      assert b == a + {n};
    } else {
      assert forall i :: i in b <==> i in a;
      assert b == a;
    }
  }

  lemma {:induction false} SelectAll<T>(xs: seq<T>, keep: set<nat>)
    requires Below(|xs|) <= keep
    ensures Select(xs, keep) == xs
  {
    if xs != [] {
      var n := |xs| - 1;
      assert n in Below(|xs|);
      assert Below(n) <= Below(|xs|);
      SelectAll(xs[..n], keep);
    }
  }

  lemma {:induction false} SelectStep<T>(xs: seq<T>, keep: set<nat>, i: nat)
    requires i < |xs|
    ensures Select(xs[..i + 1], keep) == if i in keep then Select(xs[..i], keep) + [xs[i]] else Select(xs[..i], keep)
  {
    PrefixStep(xs, i);
  }

  method KeepAt<T>(xs: seq<T>, keep: set<nat>) returns (out: seq<T>)
    ensures out == Select(xs, keep)
  {
    out := [];
    for i := 0 to |xs|
      invariant out == Select(xs[..i], keep)
    {
      SelectStep(xs, keep, i);
      if i in keep {
        out := out + [xs[i]];
      }
    }
    assert xs[..|xs|] == xs;
  }

  lemma OneMore<T>(a: set<T>, b: set<T>) returns (x: T)
    requires a <= b && |b| == |a| + 1
    ensures x in b && x !in a && b == a + {x}
  {
    var rest := b - a;
    assert b == a + rest;
    x :| x in rest;
    SubsetSize({x}, rest);
  }

  // ---- pickLogLines --------------------------------------------------------

  /** Adds the errors from the newest back while there is room. */
  function TakeErrors(errs: seq<nat>, pick: set<nat>, quota: nat): set<nat> {
    if errs == [] || |pick| >= quota then pick
    else TakeErrors(errs[..|errs| - 1], pick + {errs[|errs| - 1]}, quota)
  }

  /** Adds the positions below i from the newest back while there is room. */
  function Fill(i: nat, pick: set<nat>, limit: nat): set<nat> {
    if i == 0 || |pick| >= limit then pick
    else Fill(i - 1, pick + {i - 1}, limit)
  }

  function Quota(limit: nat): nat {
    limit * 2 / 3
  }

  /** The positions that are kept of n lines, of which `errs` look like errors. */
  function PickSet(errs: seq<nat>, n: nat, limit: nat): set<nat> {
    if n <= limit then Below(n) else Fill(n, TakeErrors(errs, {}, Quota(limit)), limit)
  }

  /** The positions of the lines that look like errors, oldest first. */
  ghost predicate ErrorsOf(lines: seq<string>, isError: string -> bool, errs: seq<nat>) {
    ErrorsUpTo(lines, isError, |lines|, errs)
  }

  ghost predicate ErrorsUpTo(lines: seq<string>, isError: string -> bool, n: nat, errs: seq<nat>)
    requires n <= |lines|
  {
    && Ascending(errs)
    && (forall k :: 0 <= k < |errs| ==> errs[k] < n && isError(lines[errs[k]]))
    && (forall i: nat :: i < n && isError(lines[i]) ==> i in errs)
  }

  function Errors(lines: seq<string>, isError: string -> bool): seq<nat> {
    if lines == [] then []
    else if isError(lines[|lines| - 1]) then Errors(lines[..|lines| - 1], isError) + [|lines| - 1]
    else Errors(lines[..|lines| - 1], isError)
  }

  lemma ErrorsStep(lines: seq<string>, isError: string -> bool, i: nat)
    requires i < |lines|
    ensures Errors(lines[..i + 1], isError) == if isError(lines[i]) then Errors(lines[..i], isError) + [i]
        else Errors(lines[..i], isError)
  {
    PrefixStep(lines, i);
  }

  lemma {:induction false} ErrorsPrefix(lines: seq<string>, isError: string -> bool, n: nat)
    requires n <= |lines|
    ensures ErrorsUpTo(lines, isError, n, Errors(lines[..n], isError))
  {
    if n > 0 {
      ErrorsPrefix(lines, isError, n - 1);
      ErrorsUpToNext(lines, isError, n - 1);
    }
  }

  lemma ErrorsUpToNext(lines: seq<string>, isError: string -> bool, n: nat)
    requires n < |lines| && ErrorsUpTo(lines, isError, n, Errors(lines[..n], isError))
    ensures ErrorsUpTo(lines, isError, n + 1, Errors(lines[..n + 1], isError))
  {
    ErrorsStep(lines, isError, n);
    if isError(lines[n]) {
      OneErrorMore(lines, isError, n, Errors(lines[..n], isError));
    }
  }

  lemma OneErrorMore(lines: seq<string>, isError: string -> bool, n: nat, before: seq<nat>)
    requires n < |lines| && isError(lines[n]) && ErrorsUpTo(lines, isError, n, before)
    ensures ErrorsUpTo(lines, isError, n + 1, before + [n])
  {
    assert forall i: nat :: i in before + [n] <==> i in before || i == n;
  }

  lemma ErrorsAreErrors(lines: seq<string>, isError: string -> bool)
    ensures ErrorsOf(lines, isError, Errors(lines, isError))
  {
    ErrorsPrefix(lines, isError, |lines|);
    assert lines[..|lines|] == lines;
  }

  method FindErrors(lines: seq<string>, isError: string -> bool) returns (errs: seq<nat>)
    ensures errs == Errors(lines, isError)
  {
    errs := [];
    for i := 0 to |lines|
      invariant errs == Errors(lines[..i], isError)
    {
      ErrorsStep(lines, isError, i);
      if isError(lines[i]) {
        errs := errs + [i];
      }
    }
    assert lines[..|lines|] == lines;
  }

  lemma PickedSize(lines: seq<string>, isError: string -> bool, limit: nat)
    ensures |Select(lines, PickSet(Errors(lines, isError), |lines|, limit))| == Fewer(limit, |lines|)
  {
    var errs := Errors(lines, isError);
    var keep := PickSet(errs, |lines|, limit);
    ErrorsAreErrors(lines, isError);
    var _ := PickSetShape(errs, |lines|, limit);
    SelectSize(lines, keep);
    assert keep * Below(|lines|) == keep;
  }

  /** At most `limit` lines, in their order: errors first, up to two thirds, then the most recent others. */
  method PickLogLines(lines: seq<string>, isError: string -> bool, limit: nat) returns (out: seq<string>)
    ensures out == Select(lines, PickSet(Errors(lines, isError), |lines|, limit))
    ensures |out| == Fewer(limit, |lines|)
    ensures if |lines| <= limit then out == lines else Picked(lines, isError, limit, out)
  {
    PickedSize(lines, isError, limit);
    if |lines| <= limit {
      SelectAll(lines, Below(|lines|));
      return lines;
    }
    var errors := FindErrors(lines, isError);
    var pick := PickPositions(errors, |lines|, limit);
    out := KeepAt(lines, pick);
    PickedExactly(lines, isError, limit);
  }

  method PickPositions(errors: seq<nat>, n: nat, limit: nat) returns (pick: set<nat>)
    requires n > limit
    ensures pick == PickSet(errors, n, limit)
  {
    pick := {};
    var i := |errors|;
    assert errors[..i] == errors;
    while i > 0 && |pick| < Quota(limit)
      invariant 0 <= i <= |errors|
      invariant TakeErrors(errors[..i], pick, Quota(limit)) == TakeErrors(errors, {}, Quota(limit))
    {
      i := i - 1;
      assert errors[..i + 1][..i] == errors[..i];
      pick := pick + {errors[i]};
    }
    i := n;
    while i > 0 && |pick| < limit
      invariant 0 <= i <= n
      invariant Fill(i, pick, limit) == PickSet(errors, n, limit)
    {
      i := i - 1;
      pick := pick + {i};
    }
  }

  // What filling does to a set of positions.

  lemma {:induction false} FillShape(i: nat, pick: set<nat>, limit: nat) returns (t: nat)
    ensures t <= i
    ensures forall x: nat :: x in Fill(i, pick, limit) <==> x in pick || t <= x < i
    decreases i
  {
    if i == 0 || |pick| >= limit {
      t := i;
    } else {
      t := FillShape(i - 1, pick + {i - 1}, limit);
    }
  }

  lemma {:induction false} FillSize(i: nat, pick: set<nat>, limit: nat, n: nat)
    requires |pick| <= limit <= n && i <= n && pick <= Below(n)
    requires forall k: nat :: i <= k < n ==> k in pick
    ensures |Fill(i, pick, limit)| == limit && Fill(i, pick, limit) <= Below(n)
    decreases i
  {
    if i == 0 {
      SubsetSize(Below(n), pick);
    } else if |pick| < limit {
      assert |pick + {i - 1}| <= |pick| + 1;
      FillSize(i - 1, pick + {i - 1}, limit, n);
    }
  }

  lemma {:induction false} FillNested(i: nat, a: set<nat>, b: set<nat>, limit: nat)
    requires a <= b && |b| <= |a| + 1
    ensures Fill(i, a, limit) <= Fill(i, b, limit + 1)
    decreases i
  {
    if i > 0 && |a| < limit {
      AddBoth(a, b, i - 1);
      FillNested(i - 1, a + {i - 1}, b + {i - 1}, limit);
    } else {
      FillGrows(i, b, limit + 1);
    }
  }

  lemma AddBoth(a: set<nat>, b: set<nat>, x: nat)
    requires a <= b && |b| <= |a| + 1
    ensures a + {x} <= b + {x} && |b + {x}| <= |a + {x}| + 1
  {
    if x in a {
      assert a + {x} == a && b + {x} == b;
    } else if x in b {
      assert b + {x} == b;
    }
  }

  lemma {:induction false} FillGrows(i: nat, pick: set<nat>, limit: nat)
    ensures pick <= Fill(i, pick, limit)
    decreases i
  {
    if i > 0 && |pick| < limit {
      FillGrows(i - 1, pick + {i - 1}, limit);
    }
  }

  function Fewer(a: nat, b: nat): nat {
    if a < b then a else b
  }

  /** The newest k errors. */
  ghost function Newest(errs: seq<nat>, k: nat): set<nat>
    requires k <= |errs|
  {
    if k == 0 then {} else Newest(errs[..|errs| - 1], k - 1) + {errs[|errs| - 1]}
  }

  lemma {:induction false} NewestIn(errs: seq<nat>, k: nat)
    requires k <= |errs|
    ensures forall x :: x in Newest(errs, k) ==> x in errs
  {
    if k > 0 {
      NewestIn(errs[..|errs| - 1], k - 1);
    }
  }

  lemma {:induction false} NewestHas(errs: seq<nat>, k: nat, j: nat)
    requires k <= |errs| && |errs| - k <= j < |errs|
    ensures errs[j] in Newest(errs, k)
  {
    if j < |errs| - 1 {
      NewestHas(errs[..|errs| - 1], k - 1, j);
    }
  }

  lemma {:induction false} NewestSize(errs: seq<nat>, k: nat)
    requires k <= |errs| && Ascending(errs)
    ensures |Newest(errs, k)| == k
  {
    if k > 0 {
      var front, last := errs[..|errs| - 1], errs[|errs| - 1];
      NewestSize(front, k - 1);
      NewestIn(front, k - 1);
      assert last !in front;
    }
  }

  lemma NewestMembers(errs: seq<nat>, k: nat)
    requires k <= |errs| && Ascending(errs)
    ensures forall x :: x in Newest(errs, k) ==> x in errs
    ensures forall j :: |errs| - k <= j < |errs| ==> errs[j] in Newest(errs, k)
    ensures |Newest(errs, k)| == k
  {
    NewestIn(errs, k);
    NewestSize(errs, k);
    forall j | |errs| - k <= j < |errs| ensures errs[j] in Newest(errs, k) {
      NewestHas(errs, k, j);
    }
  }

  lemma NewestLast(errs: seq<nat>, pick: set<nat>, k: nat)
    requires k < |errs|
    ensures pick + {errs[|errs| - 1]} + Newest(errs[..|errs| - 1], k) == pick + Newest(errs, k + 1)
  {
  }

  /** The errors taken are the newest min(#errors, quota). */
  lemma {:induction false} TakenErrors(errs: seq<nat>, pick: set<nat>, quota: nat)
    requires Ascending(errs) && |pick| <= quota
    requires forall e :: e in pick ==> e !in errs
    ensures TakeErrors(errs, pick, quota) == pick + Newest(errs, Fewer(|errs|, quota - |pick|))
    decreases |errs|
  {
    var n := Fewer(|errs|, quota - |pick|);
    if n == 0 {
      assert pick + Newest(errs, 0) == pick;
    } else {
      var front, more := errs[..|errs| - 1], pick + {errs[|errs| - 1]};
      LastTaken(errs, pick);
      TakenErrors(front, more, quota);
      assert TakeErrors(errs, pick, quota) == more + Newest(front, n - 1);
      NewestLast(errs, pick, n - 1);
    }
  }

  lemma LastTaken(errs: seq<nat>, pick: set<nat>)
    requires Ascending(errs) && errs != [] && forall e :: e in pick ==> e !in errs
    ensures var front, more := errs[..|errs| - 1], pick + {errs[|errs| - 1]};
            |more| == |pick| + 1 && Ascending(front) && forall e :: e in more ==> e !in front
  {
    LastIsNew(errs);
  }

  lemma LastIsNew(errs: seq<nat>)
    requires Ascending(errs) && errs != []
    ensures errs[|errs| - 1] in errs && errs[|errs| - 1] !in errs[..|errs| - 1]
    ensures forall x :: x in errs[..|errs| - 1] ==> x in errs
  {
  }

  ghost predicate ErrorsBelow(errs: seq<nat>, n: nat) {
    Ascending(errs) && forall k :: 0 <= k < |errs| ==> errs[k] < n
  }

  ghost function TakenOf(errs: seq<nat>, limit: nat): set<nat> {
    Newest(errs, Fewer(|errs|, Quota(limit)))
  }

  /** Exactly min(limit, n) lines are kept: the newest min(#errors, 2/3 limit) errors, and besides those
      a run of the most recent lines. */
  lemma PickSetShape(errs: seq<nat>, n: nat, limit: nat) returns (t: nat)
    requires ErrorsBelow(errs, n)
    ensures PickSet(errs, n, limit) <= Below(n) && |PickSet(errs, n, limit)| == Fewer(limit, n)
    ensures forall k :: |errs| - Fewer(|errs|, Quota(limit)) <= k < |errs| ==> errs[k] in PickSet(errs, n, limit)
    ensures t <= n && PickSet(errs, n, limit) == Span(t, n) + if n <= limit then {} else TakenOf(errs, limit)
  {
    if n <= limit {
      t := 0;
    } else {
      TakenAre(errs, limit);
      TakenSize(errs, n, limit);
      FillSize(n, TakenOf(errs, limit), limit, n);
      t := FillIs(n, TakenOf(errs, limit), limit);
    }
  }

  lemma FillIs(n: nat, taken: set<nat>, limit: nat) returns (t: nat)
    ensures t <= n && Fill(n, taken, limit) == Span(t, n) + taken
  {
    t := FillShape(n, taken, limit);
  }

  lemma TakenSize(errs: seq<nat>, n: nat, limit: nat)
    requires ErrorsBelow(errs, n)
    ensures |TakenOf(errs, limit)| <= limit && TakenOf(errs, limit) <= Below(n)
    ensures forall k :: |errs| - Fewer(|errs|, Quota(limit)) <= k < |errs| ==> errs[k] in TakenOf(errs, limit)
  {
    NewestMembers(errs, Fewer(|errs|, Quota(limit)));
  }

  lemma TakenAre(errs: seq<nat>, limit: nat)
    requires Ascending(errs)
    ensures TakeErrors(errs, {}, Quota(limit)) == TakenOf(errs, limit)
  {
    TakenErrors(errs, {}, Quota(limit));
    var none: set<nat> := {};
    assert none + TakenOf(errs, limit) == TakenOf(errs, limit);
  }

  lemma QuotaStep(limit: nat)
    ensures Quota(limit) <= Quota(limit + 1) <= Quota(limit) + 1
  {
  }

  lemma TakenNested(errs: seq<nat>, limit: nat)
    requires Ascending(errs)
    ensures TakenOf(errs, limit) <= TakenOf(errs, limit + 1) && |TakenOf(errs, limit + 1)| <= |TakenOf(errs, limit)| + 1
  {
    var k, l := Fewer(|errs|, Quota(limit)), Fewer(|errs|, Quota(limit + 1));
    QuotaStep(limit);
    NewestSize(errs, k);
    NewestSize(errs, l);
    if l == k + 1 {
      NewestNested(errs, k);
    }
  }

  lemma {:induction false} NewestNested(errs: seq<nat>, k: nat)
    requires k < |errs|
    ensures Newest(errs, k) <= Newest(errs, k + 1)
  {
    if k > 0 {
      NewestNested(errs[..|errs| - 1], k - 1);
    }
  }

  /** What a smaller limit keeps, a larger limit keeps. */
  lemma PickSetNested(errs: seq<nat>, n: nat, limit: nat)
    requires ErrorsBelow(errs, n)
    ensures PickSet(errs, n, limit) <= PickSet(errs, n, limit + 1)
  {
    var t := PickSetShape(errs, n, limit);
    if limit + 1 < n {
      TakenAre(errs, limit);
      TakenAre(errs, limit + 1);
      TakenNested(errs, limit);
      FillNested(n, TakenOf(errs, limit), TakenOf(errs, limit + 1), limit);
    }
  }

  /** One more line of room keeps exactly one more line. */
  lemma PickSetSize(errs: seq<nat>, n: nat, limit: nat)
    requires ErrorsBelow(errs, n)
    ensures |PickSet(errs, n, limit)| == Fewer(limit, n) && forall x :: x in PickSet(errs, n, limit) ==> x < n
  {
    var t := PickSetShape(errs, n, limit);
  }

  lemma PickSetNext(errs: seq<nat>, n: nat, limit: nat) returns (x: nat)
    requires ErrorsBelow(errs, n) && limit < n
    ensures x < n && x !in PickSet(errs, n, limit) && PickSet(errs, n, limit + 1) == PickSet(errs, n, limit) + {x}
  {
    var a, b := PickSet(errs, n, limit), PickSet(errs, n, limit + 1);
    PickSetNested(errs, n, limit);
    PickSetSize(errs, n, limit);
    PickSetSize(errs, n, limit + 1);
    x := OneMore(a, b);
  }

  // ---- newestEvents --------------------------------------------------------

  /** The order of event positions by age, newest first. */
  function Later(es: seq<Event>): (nat, nat) -> bool {
    (a: nat, b: nat) => LastAt(es, a) > LastAt(es, b)
  }

  function LastAt(es: seq<Event>, i: nat): Time {
    if i < |es| then es[i].last else ZERO_TIME
  }

  function ByAge(es: seq<Event>): seq<nat> {
    StableSort(Range(|es|), Later(es))
  }

  function NewestSet(es: seq<Event>, n: nat): set<nat> {
    if n >= |es| then Below(|es|) else set x | x in ByAge(es)[..n]
  }

  method NewestEvents(es: seq<Event>, n: nat) returns (out: seq<Event>)
    ensures out == Select(es, NewestSet(es, n))
    ensures if n >= |es| then out == es else Recent(es, n, out)
  {
    if n >= |es| {
      SelectAll(es, Below(|es|));
      return es;
    }
    var byAge := ByAge(es);
    var keep: set<nat> := set x | x in byAge[..n];
    out := KeepAt(es, keep);
    RecentExactly(es, n);
  }

  lemma ByAgeLists(es: seq<Event>)
    ensures Distinct(ByAge(es)) && (forall i: nat :: i in ByAge(es) <==> i < |es|)
  {
    StableSortPermutes(Range(|es|), Later(es));
    PermutesMembers(ByAge(es), Range(|es|));
    var b := ByAge(es);
    forall i, j | 0 <= i < j < |b| ensures b[i] != b[j] {
      if b[i] == b[j] {
        TwiceIn(b, i, j);
        DistinctMultiplicity(Range(|es|), b[i]);
      }
    }
    forall i: nat | i < |es| ensures i in b {
      assert Range(|es|)[i] == i;
    }
  }

  /** The events kept are at least as new as the events dropped. */
  lemma NewestAreNewest(es: seq<Event>, n: nat, i: nat, j: nat)
    requires i in NewestSet(es, n) && j !in NewestSet(es, n) && j < |es|
    ensures i < |es| && es[i].last >= es[j].last
  {
    ByAgeLists(es);
    var b := ByAge(es);
    LaterIsWeakOrder(es);
    assert j in b;
    var x :| 0 <= x < n && b[x] == i;
    var y :| 0 <= y < |b| && b[y] == j;
    assert b[x] in b;
    assert forall z :: 0 <= z < n ==> b[..n][z] in NewestSet(es, n);
  }

  lemma LaterIsWeakOrder(es: seq<Event>)
    ensures Sorted(ByAge(es), Later(es))
  {
    StableSortSorted(Range(|es|), Later(es));
  }

  /** One more event of room keeps exactly one more event. */
  lemma NewestSetNext(es: seq<Event>, n: nat) returns (x: nat)
    requires n < |es|
    ensures x < |es| && x !in NewestSet(es, n) && NewestSet(es, n + 1) == NewestSet(es, n) + {x}
  {
    ByAgeLists(es);
    var b := ByAge(es);
    x := b[n];
    assert x in b;
    assert b[..n + 1] == b[..n] + [x];
    if n + 1 == |es| {
      assert b[..n + 1] == b;
      forall i: nat ensures i in Below(|es|) <==> i in b {}
    }
  }

  // ---- Told by the positions -----------------------------------------------

  /** The elements at these positions, in their order. */
  ghost predicate Taken<T>(xs: seq<T>, at: seq<nat>, out: seq<T>) {
    && Ascending(at) && |out| == |at|
    && forall k :: 0 <= k < |at| ==> at[k] < |xs| && out[k] == xs[at[k]]
  }

  lemma {:induction false} SelectTakes<T>(xs: seq<T>, keep: set<nat>) returns (at: seq<nat>)
    ensures Taken(xs, at, Select(xs, keep)) && forall i: nat :: i in at <==> i < |xs| && i in keep
  {
    at := [];
    if xs != [] {
      var n := |xs| - 1;
      at := SelectTakes(xs[..n], keep);
      if n in keep {
        at := TakeNext(xs, at, Select(xs[..n], keep));
      }
    }
  }

  lemma TakeNext<T>(xs: seq<T>, at: seq<nat>, out: seq<T>) returns (more: seq<nat>)
    requires xs != [] && Taken(xs[..|xs| - 1], at, out)
    ensures Taken(xs, more, out + [xs[|xs| - 1]]) && forall i: nat :: i in more <==> i in at || i == |xs| - 1
  {
    more := at + [|xs| - 1];
  }

  /** The positions that hold errors. */
  ghost predicate ErrorPositions(lines: seq<string>, isError: string -> bool, errs: seq<nat>) {
    Ascending(errs) && forall i: nat :: i in errs <==> i < |lines| && isError(lines[i])
  }

  /** One of the newest errors, as many as two thirds of the limit. */
  ghost predicate NewError(errs: seq<nat>, limit: nat, i: nat) {
    exists k :: 0 <= k < |errs| && errs[k] == i && |errs| - k <= limit * 2 / 3
  }

  ghost predicate PickedAt(lines: seq<string>, isError: string -> bool, limit: nat, out: seq<string>, at: seq<nat>,
                           errs: seq<nat>, t: nat) {
    && |out| == limit && Taken(lines, at, out) && ErrorPositions(lines, isError, errs)
    && forall i: nat :: i in at <==> NewError(errs, limit, i) || t <= i < |lines|
  }

  /** As many lines as the limit, in their order: the newest errors, up to two thirds of it, and the most recent
      lines. */
  ghost predicate Picked(lines: seq<string>, isError: string -> bool, limit: nat, out: seq<string>) {
    exists at, errs, t: nat :: PickedAt(lines, isError, limit, out, at, errs, t)
  }

  lemma NewestAre(errs: seq<nat>, k: nat, i: nat)
    requires k <= |errs|
    ensures i in Newest(errs, k) <==> exists j :: |errs| - k <= j < |errs| && errs[j] == i
  {
    if k > 0 {
      NewestAre(errs[..|errs| - 1], k - 1, i);
    }
  }

  lemma TakenIsNew(errs: seq<nat>, limit: nat, i: nat)
    ensures i in TakenOf(errs, limit) <==> NewError(errs, limit, i)
  {
    var k := Fewer(|errs|, Quota(limit));
    NewestAre(errs, k, i);
  }

  lemma KeptAre(errs: seq<nat>, n: nat, limit: nat) returns (t: nat)
    requires ErrorsBelow(errs, n) && limit < n
    ensures forall i: nat :: i in PickSet(errs, n, limit) <==> NewError(errs, limit, i) || t <= i < n
  {
    t := PickSetShape(errs, n, limit);
    forall i: nat ensures i in TakenOf(errs, limit) <==> NewError(errs, limit, i) {
      TakenIsNew(errs, limit, i);
    }
  }

  lemma PickedExactly(lines: seq<string>, isError: string -> bool, limit: nat)
    requires limit < |lines|
    ensures Picked(lines, isError, limit, Select(lines, PickSet(Errors(lines, isError), |lines|, limit)))
  {
    var errs := Errors(lines, isError);
    var keep := PickSet(errs, |lines|, limit);
    ErrorsAreErrors(lines, isError);
    PickedSize(lines, isError, limit);
    var t := KeptAre(errs, |lines|, limit);
    var at := SelectTakes(lines, keep);
    ErrorsPlaced(lines, isError, errs);
    PickedFrom(lines, isError, limit, Select(lines, keep), at, errs, t, keep);
  }

  lemma ErrorsPlaced(lines: seq<string>, isError: string -> bool, errs: seq<nat>)
    requires ErrorsOf(lines, isError, errs)
    ensures ErrorPositions(lines, isError, errs) && ErrorsBelow(errs, |lines|)
  {
  }

  lemma PickedFrom(lines: seq<string>, isError: string -> bool, limit: nat, out: seq<string>, at: seq<nat>,
                   errs: seq<nat>, t: nat, keep: set<nat>)
    requires |out| == limit && Taken(lines, at, out) && ErrorPositions(lines, isError, errs)
    requires forall i: nat :: i in at <==> i < |lines| && i in keep
    requires forall i: nat :: i in keep <==> NewError(errs, limit, i) || t <= i < |lines|
    ensures Picked(lines, isError, limit, out)
  {
    forall i: nat | NewError(errs, limit, i) ensures i < |lines| {
      assert i in errs;
    }
    assert PickedAt(lines, isError, limit, out, at, errs, t);
  }

  /** The newer of two events; of two as new, the one listed first. */
  ghost predicate GoesFirst(es: seq<Event>, i: nat, j: nat)
    requires i < |es| && j < |es|
  {
    es[i].last > es[j].last || (es[i].last == es[j].last && i <= j)
  }

  /** The n newest events, in their own order. */
  ghost predicate Recent(es: seq<Event>, n: nat, out: seq<Event>) {
    exists at ::
      && |out| == n && Taken(es, at, out)
      && forall i: nat, j: nat :: i in at && j < |es| && j !in at ==> i < |es| && GoesFirst(es, i, j)
  }

  /** Positions listed newest first, of equals the first first. */
  ghost predicate ByAgeThenPlace(es: seq<Event>, b: seq<nat>) {
    && (forall k :: 0 <= k < |b| ==> b[k] < |es|)
    && forall x, y :: 0 <= x < y < |b| ==> GoesFirst(es, b[x], b[y])
  }

  lemma PlaceNext(es: seq<Event>, b: seq<nat>, i: nat)
    requires ByAgeThenPlace(es, b) && i < |es| && forall x :: 0 <= x < |b| ==> GoesFirst(es, b[x], i)
    ensures ByAgeThenPlace(es, b + [i])
  {
  }

  lemma LastGoesFirst(es: seq<Event>, b: seq<nat>, i: nat)
    requires ByAgeThenPlace(es, b) && i < |es| && b != [] && !Later(es)(i, b[|b| - 1])
    requires forall x :: 0 <= x < |b| ==> b[x] < i
    ensures forall x :: 0 <= x < |b| ==> GoesFirst(es, b[x], i)
  {
    forall x | 0 <= x < |b| ensures GoesFirst(es, b[x], i) {
      assert x == |b| - 1 || GoesFirst(es, b[x], b[|b| - 1]);
    }
  }

  lemma {:induction false} InsertKeepsPlace(es: seq<Event>, b: seq<nat>, i: nat)
    requires ByAgeThenPlace(es, b) && i < |es| && forall x :: 0 <= x < |b| ==> b[x] < i
    ensures ByAgeThenPlace(es, Insert(b, i, Later(es)))
  {
    if b == [] {
      PlaceNext(es, [], i);
    } else {
      var front, last := b[..|b| - 1], b[|b| - 1];
      if Later(es)(i, last) {
        var r := Insert(front, i, Later(es));
        InsertKeepsPlace(es, front, i);
        InsertPermutes(front, i, Later(es));
        PermutesMembers(r, front + [i]);
        forall x | 0 <= x < |r| ensures GoesFirst(es, r[x], last) {
          assert r[x] in front + [i];
        }
        PlaceNext(es, r, last);
      } else {
        LastGoesFirst(es, b, i);
        PlaceNext(es, b, i);
      }
    }
  }

  lemma {:induction false} SortKeepsPlace(es: seq<Event>, n: nat)
    requires n <= |es|
    ensures ByAgeThenPlace(es, StableSort(Range(n), Later(es))) && Permutes(StableSort(Range(n), Later(es)), Range(n))
  {
    if n > 0 {
      assert Range(n)[..n - 1] == Range(n - 1);
      SortKeepsPlace(es, n - 1);
      StableSortPermutes(Range(n), Later(es));
      PermutesMembers(StableSort(Range(n - 1), Later(es)), Range(n - 1));
      var b := StableSort(Range(n - 1), Later(es));
      forall x | 0 <= x < |b| ensures b[x] < n - 1 {
        assert b[x] in b;
      }
      InsertKeepsPlace(es, b, n - 1);
    }
  }

  lemma RecentExactly(es: seq<Event>, n: nat)
    requires n < |es|
    ensures Recent(es, n, Select(es, NewestSet(es, n)))
  {
    var b := ByAge(es);
    SortKeepsPlace(es, |es|);
    ByAgeLists(es);
    var at := SelectTakes(es, NewestSet(es, n));
    NewestCount(es, n);
    forall i: nat, j: nat | i in at && j < |es| && j !in at ensures i < |es| && GoesFirst(es, i, j) {
      assert j in b;
      var x :| 0 <= x < n && b[x] == i;
      var y :| 0 <= y < |b| && b[y] == j;
      InNewest(es, n, y);
    }
  }

  lemma InNewest(es: seq<Event>, n: nat, y: nat)
    requires n < |es| && y < |es|
    ensures y < n ==> ByAge(es)[y] in NewestSet(es, n)
  {
    assert y < n ==> ByAge(es)[..n][y] == ByAge(es)[y];
  }

  lemma NewestCount(es: seq<Event>, n: nat)
    requires n < |es|
    ensures |Select(es, NewestSet(es, n))| == n
  {
    var b, keep := ByAge(es), NewestSet(es, n);
    ByAgeLists(es);
    SelectSize(es, keep);
    forall i | i in keep ensures i < |es| {
      assert i in b[..n] && i in b;
    }
    assert keep * Below(|es|) == keep;
    DistinctSize(b[..n]);
    assert keep == set x | x in b[..n];
  }

  lemma {:induction false} DistinctSize<T(!new)>(xs: seq<T>)
    requires Distinct(xs)
    ensures |set x | x in xs| == |xs|
  {
    if xs != [] {
      var n := |xs| - 1;
      DistinctSize(xs[..n]);
      assert (set x | x in xs) == (set x | x in xs[..n]) + {xs[n]};
      assert xs[n] !in xs[..n];
    }
  }
}
