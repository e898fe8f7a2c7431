/** The warning feed (warnings.go) read page by page from a list call (bench_replay.go). */
module Paging {
  import opened Clock
  import opened Events
  import opened Groups
  import opened Merging
  import opened Sequences
  import opened Strings

  const PAGE_SIZE := 500
  const MAX_PAGES := 20

  /** An answer to a list call; the token asks for what follows. */
  datatype Reply = Page(items: seq<Event>, next: Option<int>) | Failed(error: string, forbidden: bool) | Cancelled

  // ---- The server ----------------------------------------------------------

  function ServerKey(e: Event): string {
    e.namespace + "/" + e.name
  }

  predicate KeyLess(a: Event, b: Event) {
    StringLess(ServerKey(a), ServerKey(b))
  }

  lemma KeyLessIsWeakOrder()
    ensures WeakOrder(KeyLess)
  {
    StringLessIsWeakOrder();
  }

  /** What a selector matches, in namespace/name order. */
  function Matching(objects: seq<Event>, selects: Event -> bool): seq<Event> {
    Filter(StableSort(objects, KeyLess), selects)
  }

  /** By namespace, a slash and the name. */
  ghost predicate InNameOrder(es: seq<Event>) {
    forall i, j :: 0 <= i < j < |es| ==>
      var a, b := es[i].namespace + "/" + es[i].name, es[j].namespace + "/" + es[j].name;
      a == b || StringLess(a, b)
  }

  /** That is: everything the selector matches, once each, in that order. */
  lemma MatchingInOrder(objects: seq<Event>, selects: Event -> bool)
    ensures Sorted(Matching(objects, selects), KeyLess)
    ensures Permutes(Matching(objects, selects), Filter(objects, selects))
    ensures InNameOrder(Matching(objects, selects))
  {
    KeyLessIsWeakOrder();
    StableSortSorted(objects, KeyLess);
    FilterSorted(StableSort(objects, KeyLess), selects, KeyLess);
    StableSortPermutes(objects, KeyLess);
    FilterPermutes(StableSort(objects, KeyLess), objects, selects);
    SortedInNameOrder(Matching(objects, selects));
  }

  lemma SortedInNameOrder(es: seq<Event>)
    requires Sorted(es, KeyLess)
    ensures InNameOrder(es)
  {
    forall i, j | 0 <= i < j < |es|
      ensures var a, b := es[i].namespace + "/" + es[i].name, es[j].namespace + "/" + es[j].name;
              a == b || StringLess(a, b)
    {
      assert !KeyLess(es[j], es[i]);
      StringLessTrichotomy(ServerKey(es[i]), ServerKey(es[j]));
    }
  }

  /** One page of a list: the whole rest without a limit. */
  function Serve(items: seq<Event>, limit: int, token: Option<int>): Reply {
    var start := if token.Some? then token.value else 0;
    if start < 0 || start > |items| then Failed("bad continue token", false)
    else if limit > 0 && |items| - start > limit then Page(items[start..start + limit], Some(start + limit))
    else Page(items[start..], None)
  }

  method KeepSelected(items: seq<Event>, selects: Event -> bool) returns (kept: seq<Event>)
    ensures kept == Filter(items, selects)
  {
    kept := [];
    for i := 0 to |items|
      invariant kept == Filter(items[..i], selects)
    {
      FilterStep(items, selects, i);
      if selects(items[i]) {
        kept := kept + [items[i]];
      }
    }
    assert items[..|items|] == items;
  }

  method ListLikeAPIServer(objects: seq<Event>, selects: Event -> bool, limit: int, token: Option<int>)
    returns (reply: Reply)
    ensures reply == Serve(Matching(objects, selects), limit, token)
    ensures Sorted(Matching(objects, selects), KeyLess)
        && Permutes(Matching(objects, selects), Filter(objects, selects))
    ensures InNameOrder(Matching(objects, selects))
  {
    MatchingInOrder(objects, selects);
    var kept := KeepSelected(StableSort(objects, KeyLess), selects);
    var start := 0;
    if token.Some? {
      start := token.value;
      if start < 0 || start > |kept| {
        return Failed("bad continue token", false);
      }
    }
    var end, next := |kept|, None;
    if limit > 0 && end - start > limit {
      end := start + limit;
      next := Some(end);
    }
    reply := Page(kept[start..end], next);
  }

  // ---- The client ----------------------------------------------------------

  /** The list call: its answer to the p-th request with a token. */
  type Lister = (nat, Option<int>) -> Reply

  datatype Fetch = Fetched(items: seq<Event>, truncated: bool) | Refused(error: string, forbidden: bool) | Abandoned

  function After(got: seq<Event>, f: Fetch): Fetch {
    if f.Fetched? then Fetched(got + f.items, f.truncated) else f
  }

  /** What reading on from a page brings. */
  function Collect(list: Lister, page: nat, token: Option<int>): Fetch
    decreases MAX_PAGES - page
  {
    match list(page, token)
    case Cancelled => Abandoned
    case Failed(error, forbidden) => Refused(error, forbidden)
    case Page(items, next) =>
      if next.None? then Fetched(items, false)
      else if page >= MAX_PAGES then Fetched(items, true)
      else After(items, Collect(list, page + 1, next))
  }

  function PagesOf(items: seq<Event>): Lister {
    (page: nat, token: Option<int>) => Serve(items, PAGE_SIZE, token)
  }

  lemma {:induction false} CollectFrom(items: seq<Event>, page: nat, start: nat)
    requires 1 <= page <= MAX_PAGES && start == (page - 1) * PAGE_SIZE && start <= |items|
    ensures var most := MAX_PAGES * PAGE_SIZE;
            Collect(PagesOf(items), page, Some(start)) ==
            if |items| <= most then Fetched(items[start..], false) else Fetched(items[start..most], true)
    decreases MAX_PAGES - page
  {
    var end := start + PAGE_SIZE;
    if |items| > end && page < MAX_PAGES {
      CollectFrom(items, page + 1, end);
      assert items[start..] == items[start..end] + items[end..];
      assert |items| > MAX_PAGES * PAGE_SIZE ==>
               items[start..MAX_PAGES * PAGE_SIZE] == items[start..end] + items[end..MAX_PAGES * PAGE_SIZE];
    }
  }

  /** Paging loses and repeats nothing: the feed reads exactly the first 20 pages' worth of what matches, in the
      server's order, and knows whether there is more. */
  lemma PagingLosesNothing(items: seq<Event>)
    ensures var most := MAX_PAGES * PAGE_SIZE;
            Collect(PagesOf(items), 1, None) ==
            if |items| <= most then Fetched(items, false) else Fetched(items[..most], true)
  {
    CollectFrom(items, 1, 0);
    assert PagesOf(items)(1, None) == PagesOf(items)(1, Some(0));
    assert items[0..] == items && items[0..|items|] == items;
    if |items| > MAX_PAGES * PAGE_SIZE {
      assert items[0..MAX_PAGES * PAGE_SIZE] == items[..MAX_PAGES * PAGE_SIZE];
    }
  }

  // ---- By namespace --------------------------------------------------------

  type Filing = map<string, seq<Event>>

  function NamespaceOf(): Event -> string {
    (e: Event) => e.namespace
  }

  function FiledUnder(byNS: Filing, ns: string): seq<Event> {
    if ns in byNS then byNS[ns] else []
  }

  /** Each namespace has its own events, in the order they came, and no namespace is listed without any. */
  ghost predicate Filed(items: seq<Event>, byNS: Filing) {
    forall ns {:trigger FiledUnder(byNS, ns)} ::
      FiledUnder(byNS, ns) == Bucket(items, NamespaceOf(), ns) && (ns in byNS <==> FiledUnder(byNS, ns) != [])
  }

  lemma FiledStep(items: seq<Event>, byNS: Filing, e: Event)
    requires Filed(items, byNS)
    ensures Filed(items + [e], byNS[e.namespace := FiledUnder(byNS, e.namespace) + [e]])
  {
    var byNS' := byNS[e.namespace := FiledUnder(byNS, e.namespace) + [e]];
    forall ns ensures FiledUnder(byNS', ns) == Bucket(items + [e], NamespaceOf(), ns)
        && (ns in byNS' <==> FiledUnder(byNS', ns) != []) {
      BucketAppend(items, NamespaceOf(), ns, e);
      assert FiledUnder(byNS, ns) == Bucket(items, NamespaceOf(), ns);
    }
  }

  lemma FiledNext(got: seq<Event>, page: seq<Event>, i: nat, byNS: Filing)
    requires i < |page| && Filed(got + page[..i], byNS)
    ensures Filed(got + page[..i + 1], byNS[page[i].namespace := FiledUnder(byNS, page[i].namespace) + [page[i]]])
  {
    FiledStep(got + page[..i], byNS, page[i]);
    PrefixStep(page, i);
    assert got + page[..i + 1] == (got + page[..i]) + [page[i]];
  }

  method FilePage(byNS: Filing, got: seq<Event>, page: seq<Event>) returns (r: Filing)
    requires Filed(got, byNS)
    ensures Filed(got + page, r)
  {
    r := byNS;
    assert got + page[..0] == got;
    for i := 0 to |page|
      invariant Filed(got + page[..i], r)
    {
      FiledNext(got, page, i, r);
      r := r[page[i].namespace := FiledUnder(r, page[i].namespace) + [page[i]]];
    }
    assert page[..|page|] == page;
  }

  /** The same, newest first. */
  ghost predicate Shown(items: seq<Event>, byNS: Filing) {
    forall ns {:trigger FiledUnder(byNS, ns)} ::
      FiledUnder(byNS, ns) == StableSort(Bucket(items, NamespaceOf(), ns), NewestFirst)
  }

  method SortAll(items: seq<Event>, byNS: Filing) returns (r: Filing)
    requires Filed(items, byNS)
    ensures Shown(items, r) && r.Keys == byNS.Keys
  {
    r := byNS;
    var keys := IterationOrder(byNS.Keys);
    for i := 0 to |keys|
      invariant r.Keys == byNS.Keys
      invariant forall ns {:trigger FiledUnder(r, ns)} ::
                  FiledUnder(r, ns) == if ns in keys[..i] then StableSort(FiledUnder(byNS, ns), NewestFirst)
                      else FiledUnder(byNS, ns)
    {
      var ns := keys[i];
      assert ns in keys && ns !in keys[..i] && keys[..i + 1] == keys[..i] + [ns];
      assert FiledUnder(r, ns) == FiledUnder(byNS, ns);
      var sorted := SortNewestFirst(r[ns]);
      ghost var before := r;
      r := r[ns := sorted];
      forall m ensures FiledUnder(r, m) == if m in keys[..i + 1] then StableSort(FiledUnder(byNS, m), NewestFirst)
          else FiledUnder(byNS, m) {
        assert FiledUnder(r, m) == if m == ns then sorted else FiledUnder(before, m);
      }
    }
    assert keys[..|keys|] == keys;
    forall ns ensures FiledUnder(r, ns) == StableSort(Bucket(items, NamespaceOf(), ns), NewestFirst) {
      assert FiledUnder(byNS, ns) == Bucket(items, NamespaceOf(), ns);
    }
  }

  /** Every warning read is shown once, under its own namespace. */
  lemma ShownOnce(items: seq<Event>, byNS: Filing, e: Event, ns: string)
    requires Shown(items, byNS)
    ensures multiset(FiledUnder(byNS, ns))[e] == if e.namespace == ns then multiset(items)[e] else 0
    ensures Sorted(FiledUnder(byNS, ns), NewestFirst)
  {
    var bucket := Bucket(items, NamespaceOf(), ns);
    NewestFirstIsWeakOrder();
    StableSortPermutes(bucket, NewestFirst);
    StableSortSorted(bucket, NewestFirst);
    assert FiledUnder(byNS, ns) == StableSort(bucket, NewestFirst);
    BucketCount(items, NamespaceOf(), ns, e);
  }

  // ---- The feed ------------------------------------------------------------

  class WarnFeed {
    var byNS: Filing
    var fetchedAt: Time
    var attemptedAt: Time
    var truncated: bool
    var disabled: bool
    var lastErr: string

    constructor ()
      ensures byNS == map[] && fetchedAt == ZERO_TIME && attemptedAt == ZERO_TIME && !truncated && !disabled
          && lastErr == ""
    {
      byNS, fetchedAt, attemptedAt, truncated, disabled, lastErr := map[], ZERO_TIME, ZERO_TIME, false, false, "";
    }

    /** The pages, filed; nothing of the feed changes while they are read. */
    static method ReadPages(list: Lister) returns (fetch: Fetch, filing: Filing)
      ensures fetch == Collect(list, 1, None)
      ensures fetch.Fetched? ==> Filed(fetch.items, filing)
    {
      filing := map[];
      var got: seq<Event> := [];
      var page, token := 1, None;
      NothingFiled();
      while true
        invariant 1 <= page <= MAX_PAGES && Filed(got, filing)
        invariant Collect(list, 1, None) == After(got, Collect(list, page, token))
        decreases MAX_PAGES - page
      {
        var reply := list(page, token);
        match reply
        case Cancelled => return Abandoned, filing;
        case Failed(error, forbidden) => return Refused(error, forbidden), filing;
        case Page(items, next) =>
          filing := FilePage(filing, got, items);
          AfterAfter(got, items, Collect(list, page + 1, next));
          got := got + items;
          if next.None? {
            return Fetched(got, false), filing;
          }
          if page >= MAX_PAGES {
            return Fetched(got, true), filing;
          }
          page, token := page + 1, next;
      }
    }

    /** A successful fetch replaces what is shown; a failed one keeps it and says why; a cancelled one leaves
        no trace but the attempt. */
    method Refresh(list: Lister, now: Time, done: Time)
      modifies this
      ensures attemptedAt == now
      ensures match Collect(list, 1, None)
              case Fetched(items, more) =>
                Shown(items, byNS) && truncated == more && lastErr == "" && fetchedAt == done
                    && disabled == old(disabled)
              case Refused(error, forbidden) =>
                byNS == old(byNS) && truncated == old(truncated) && fetchedAt == old(fetchedAt)
                && lastErr == error && disabled == (old(disabled) || forbidden)
              case Abandoned =>
                byNS == old(byNS) && truncated == old(truncated) && fetchedAt == old(fetchedAt)
                && lastErr == old(lastErr) && disabled == old(disabled)
    {
      attemptedAt := now;
      var fetch, filing := ReadPages(list);
      match fetch
      case Abandoned =>
      case Refused(error, forbidden) =>
        lastErr := error;
        if forbidden {
          disabled := true;
        }
      case Fetched(items, more) =>
        filing := SortAll(items, filing);
        byNS, fetchedAt, truncated, lastErr := filing, done, more, "";
    }
  }

  /** The most events a fetch reads. */
  function FirstOf(items: seq<Event>): seq<Event> {
    if |items| <= MAX_PAGES * PAGE_SIZE then items else items[..MAX_PAGES * PAGE_SIZE]
  }

  /** Every one of these events is shown, as often as it is there, under its namespace and newest first. */
  ghost predicate ShowsAll(items: seq<Event>, byNS: Filing) {
    forall ns {:trigger FiledUnder(byNS, ns)} :: ShowsUnder(items, byNS, ns)
  }

  ghost predicate ShowsUnder(items: seq<Event>, byNS: Filing, ns: string) {
    && Sorted(FiledUnder(byNS, ns), NewestFirst) && InFeedOrder(FiledUnder(byNS, ns))
    && forall e :: multiset(FiledUnder(byNS, ns))[e] == if e.namespace == ns then multiset(items)[e] else 0
  }

  lemma ShownShowsAll(items: seq<Event>, byNS: Filing)
    requires Shown(items, byNS)
    ensures ShowsAll(items, byNS)
  {
    forall ns ensures ShowsUnder(items, byNS, ns) {
      forall e ensures multiset(FiledUnder(byNS, ns))[e] == if e.namespace == ns then multiset(items)[e] else 0 {
        ShownOnce(items, byNS, e, ns);
      }
      NewestFirstIsWeakOrder();
      StableSortSorted(Bucket(items, NamespaceOf(), ns), NewestFirst);
      assert FiledUnder(byNS, ns) == StableSort(Bucket(items, NamespaceOf(), ns), NewestFirst);
      SortedIsFeedOrder(FiledUnder(byNS, ns));
    }
  }

  lemma ShowsPermuted(xs: seq<Event>, ys: seq<Event>, byNS: Filing)
    requires ShowsAll(xs, byNS) && Permutes(xs, ys)
    ensures ShowsAll(ys, byNS)
  {
    forall ns ensures ShowsUnder(ys, byNS, ns) {
      assert ShowsUnder(xs, byNS, ns) by {
        assert FiledUnder(byNS, ns) == FiledUnder(byNS, ns);
      }
    }
  }

  /** End to end: from objects behind such a list call the feed shows the first ten thousand warnings in
      namespace/name order, and all of them exactly when it does not say it left some out. */
  method ReplayWarnings(feed: WarnFeed, objects: seq<Event>, now: Time, done: Time)
    modifies feed
    ensures feed.attemptedAt == now && feed.fetchedAt == done && feed.lastErr == ""
        && feed.disabled == old(feed.disabled)
    ensures ShowsAll(FirstOf(Matching(objects, IsWarning)), feed.byNS)
    ensures feed.truncated <==> |Filter(objects, IsWarning)| > MAX_PAGES * PAGE_SIZE
    ensures !feed.truncated ==> ShowsAll(Filter(objects, IsWarning), feed.byNS)
    ensures InNameOrder(Matching(objects, IsWarning)) && (feed.truncated <==> |Filter(objects, IsWarning)| > 10_000)
  {
    ghost var all := Matching(objects, IsWarning);
    PagingLosesNothing(all);
    feed.Refresh(PagesOf(Matching(objects, IsWarning)), now, done);
    ShownShowsAll(FirstOf(all), feed.byNS);
    MatchingInOrder(objects, IsWarning);
    PermutesMembers(all, Filter(objects, IsWarning));
    if !feed.truncated {
      ShowsPermuted(all, Filter(objects, IsWarning), feed.byNS);
    }
  }

  lemma NothingFiled()
    ensures Filed([], map[])
  {
    forall ns ensures Bucket([], NamespaceOf(), ns) == [] {
      BucketEmpty([], NamespaceOf(), ns);
    }
  }

  lemma AfterAfter(a: seq<Event>, b: seq<Event>, f: Fetch)
    ensures After(a, After(b, f)) == After(a + b, f)
  {
    if f.Fetched? {
      assert a + (b + f.items) == (a + b) + f.items;
    }
  }
}
