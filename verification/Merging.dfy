/** Merging the sweep's cached events with the warning feed (warnings.go). */
module Merging {
  import opened Sequences
  import opened Strings
  import opened Events

  /** Newest first; events of the same moment go by namespace and name. */
  predicate NewestFirst(a: Event, b: Event) {
    if a.last != b.last then a.last > b.last
    else if a.namespace != b.namespace then StringLess(a.namespace, b.namespace)
    else StringLess(a.name, b.name)
  }

  lemma NewestFirstIsWeakOrder()
    ensures WeakOrder(NewestFirst)
  {
    StringLessTotal();
    forall x, y, z | !NewestFirst(y, x) && !NewestFirst(z, y) ensures !NewestFirst(z, x) {
      assert x.namespace == y.namespace || StringLess(x.namespace, y.namespace) || StringLess(y.namespace, x.namespace);
      assert y.namespace == z.namespace || StringLess(y.namespace, z.namespace) || StringLess(z.namespace, y.namespace);
      assert x.name == y.name || StringLess(x.name, y.name) || StringLess(y.name, x.name);
      assert y.name == z.name || StringLess(y.name, z.name) || StringLess(z.name, y.name);
    }
  }

  method SortNewestFirst(es: seq<Event>) returns (r: seq<Event>)
    ensures r == StableSort(es, NewestFirst)
    ensures Permutes(r, es) && Sorted(r, NewestFirst)
  {
    NewestFirstIsWeakOrder();
    r := StableSort(es, NewestFirst);
    StableSortPermutes(es, NewestFirst);
    StableSortSorted(es, NewestFirst);
  }

  // ---- The merge as a map --------------------------------------------------

  ghost predicate DistinctNames(es: seq<Event>) {
    forall i, j :: 0 <= i < j < |es| ==> es[i].name != es[j].name
  }

  /** The events of one namespace: their names are unique there. */
  ghost predicate UniqueNames(es: seq<Event>) {
    DistinctNames(es) && forall e, f :: e in es && f in es ==> e.namespace == f.namespace
  }

  ghost function ByName(es: seq<Event>): map<string, Event> {
    if es == [] then map[] else ByName(es[..|es| - 1])[es[|es| - 1].name := es[|es| - 1]]
  }

  /** Of two copies of an event, the one observed later or more often wins. */
  function Newer(cached: Event, seen: Event): Event {
    if seen.last > cached.last || seen.count > cached.count then seen else cached
  }

  ghost function MergeMaps(base: map<string, Event>, extra: map<string, Event>): map<string, Event> {
    map n | n in base.Keys + extra.Keys ::
      if n !in extra then base[n] else if n !in base then extra[n] else Newer(base[n], extra[n])
  }

  /** `es` holds exactly the events of `m`, each name once. */
  ghost predicate Holds(es: seq<Event>, m: map<string, Event>) {
    && DistinctNames(es)
    && (forall e :: e in es <==> e.name in m && m[e.name] == e)
    && (forall n :: n in m ==> m[n].name == n)
  }

  lemma {:induction false} ByNameHolds(es: seq<Event>)
    requires DistinctNames(es)
    ensures Holds(es, ByName(es))
  {
    if es != [] {
      var front, e := es[..|es| - 1], es[|es| - 1];
      ByNameHolds(front);
      assert es == front + [e];
      assert forall f :: f in es <==> f in front || f == e;
      assert forall f :: f in front ==> f.name != e.name;
    }
  }

  lemma HoldsUnique(es: seq<Event>, m: map<string, Event>, k: map<string, Event>)
    requires Holds(es, m) && Holds(es, k)
    ensures m == k
  {
    forall n ensures n in m <==> n in k {
      if n in m { assert m[n] in es; }
      if n in k { assert k[n] in es; }
    }
    forall n | n in m ensures m[n] == k[n] {
      assert m[n] in es;
    }
  }

  lemma HoldsPermutes(es: seq<Event>, fs: seq<Event>, m: map<string, Event>)
    requires Holds(es, m) && Holds(fs, m)
    ensures Permutes(es, fs)
  {
    DistinctPermutes(es, fs);
  }

  lemma PermutedNames(es: seq<Event>, fs: seq<Event>)
    requires DistinctNames(es) && Permutes(fs, es)
    ensures DistinctNames(fs)
  {
    PermutesMembers(fs, es);
    forall i, j | 0 <= i < j < |fs| ensures fs[i].name != fs[j].name {
      if fs[i].name == fs[j].name {
        assert fs[i] in es && fs[j] in es;
        assert fs[i] == fs[j];
        TwiceIn(fs, i, j);
        assert Distinct(es);
        DistinctMultiplicity(es, fs[i]);
      }
    }
  }

  lemma PermutesHolds(es: seq<Event>, fs: seq<Event>, m: map<string, Event>)
    requires Holds(es, m) && Permutes(fs, es)
    ensures Holds(fs, m)
  {
    PermutesMembers(fs, es);
    PermutedNames(es, fs);
  }

  ghost predicate InOneNamespace(m: map<string, Event>) {
    forall n, n' :: n in m && n' in m ==> m[n].namespace == m[n'].namespace
  }

  /** The one newest-first list of the events of a map: names separate what times do not. */
  lemma ArrangementUnique(es: seq<Event>, fs: seq<Event>, m: map<string, Event>)
    requires Holds(es, m) && Holds(fs, m) && Sorted(es, NewestFirst) && Sorted(fs, NewestFirst)
    requires InOneNamespace(m)
    ensures es == fs
  {
    HoldsPermutes(es, fs, m);
    forall i, j | 0 <= i < |es| && 0 <= j < |es| && !NewestFirst(es[i], es[j]) && !NewestFirst(es[j], es[i])
      ensures es[i] == es[j]
    {
      assert es[i] in es && es[j] in es;
      StringLessTrichotomy(es[i].name, es[j].name);
      assert m[es[i].name].namespace == m[es[j].name].namespace;
    }
    SortedUnique(es, fs, NewestFirst);
  }

  // ---- mergeEvents ---------------------------------------------------------

  /** `idx` says where in `out` each name is. */
  ghost predicate Indexed(out: seq<Event>, idx: map<string, nat>) {
    && (forall n :: n in idx ==> idx[n] < |out| && out[idx[n]].name == n)
    && (forall i :: 0 <= i < |out| ==> out[i].name in idx && idx[out[i].name] == i)
  }

  ghost function Looked(out: seq<Event>, idx: map<string, nat>): map<string, Event>
    requires Indexed(out, idx)
  {
    map n | n in idx :: out[idx[n]]
  }

  lemma IndexedHolds(out: seq<Event>, idx: map<string, nat>)
    requires Indexed(out, idx)
    ensures Holds(out, Looked(out, idx))
  {
  }

  method IndexNames(out: seq<Event>) returns (idx: map<string, nat>)
    requires DistinctNames(out)
    ensures Indexed(out, idx)
  {
    idx := map[];
    for i := 0 to |out|
      invariant forall n :: n in idx ==> idx[n] < i && out[idx[n]].name == n
      invariant forall k :: 0 <= k < i ==> out[k].name in idx && idx[out[k].name] == k
    {
      idx := idx[out[i].name := i];
    }
  }

  function Overlay(out: seq<Event>, idx: map<string, nat>, e: Event): (r: (seq<Event>, map<string, nat>))
    requires e.name in idx ==> idx[e.name] < |out|
  {
    if e.name in idx then
      var i := idx[e.name];
      (if e.last > out[i].last || e.count > out[i].count then out[i := e] else out, idx)
    else
      (out + [e], idx[e.name := |out|])
  }

  lemma OverlayIndexed(out: seq<Event>, idx: map<string, nat>, e: Event)
    requires Indexed(out, idx)
    ensures Indexed(Overlay(out, idx, e).0, Overlay(out, idx, e).1)
  {
  }

  lemma OverlayLooked(out: seq<Event>, idx: map<string, nat>, e: Event)
    requires Indexed(out, idx)
    ensures var r := Overlay(out, idx, e);
            var m := Looked(out, idx);
            Indexed(r.0, r.1) && Looked(r.0, r.1) == m[e.name := if e.name in m then Newer(m[e.name], e) else e]
  {
    OverlayIndexed(out, idx, e);
    var r, m := Overlay(out, idx, e), Looked(out, idx);
    var m' := m[e.name := if e.name in m then Newer(m[e.name], e) else e];
    forall n | n in m' ensures n in r.1 && r.0[r.1[n]] == m'[n] {
    }
  }

  lemma MergeOneMore(bm: map<string, Event>, em: map<string, Event>, e: Event)
    requires e.name !in em
    ensures var m := MergeMaps(bm, em);
            MergeMaps(bm, em[e.name := e]) == m[e.name := if e.name in m then Newer(m[e.name], e) else e]
  {
  }

  lemma FreshName(es: seq<Event>, x: nat)
    requires x < |es| && DistinctNames(es)
    ensures es[x].name !in ByName(es[..x])
    ensures ByName(es[..x + 1]) == ByName(es[..x])[es[x].name := es[x]]
  {
    PrefixStep(es, x);
    NamedBy(es[..x], es[x].name);
  }

  lemma NamedBy(es: seq<Event>, n: string)
    requires DistinctNames(es) && forall i :: 0 <= i < |es| ==> es[i].name != n
    ensures n !in ByName(es)
  {
    ByNameHolds(es);
  }

  /** What merging must give: the events of the map merge, newest first. */
  ghost predicate IsMerge(base: seq<Event>, extra: seq<Event>, out: seq<Event>) {
    if extra == [] then out == base
    else Holds(out, MergeMaps(ByName(base), ByName(extra))) && Sorted(out, NewestFirst)
  }

  ghost predicate OneNamespace(base: seq<Event>, extra: seq<Event>) {
    UniqueNames(base) && UniqueNames(extra) && forall b, e :: b in base && e in extra ==> b.namespace == e.namespace
  }

  /** Room for both lists, filled with the first. */
  method CopyWithRoom(base: array<Event>, room: nat) returns (out: array<Event>)
    ensures fresh(out) && out.Length == base.Length + room && out[..base.Length] == base[..]
  {
    out := new Event[base.Length + room];
    for i := 0 to base.Length
      invariant out[..i] == base[..i]
    {
      out[i] := base[i];
    }
    assert base[..base.Length] == base[..];
  }

  /** One event of the feed goes over its copy, when it is newer, or to the end. */
  method OverlayOne(out: array<Event>, n: nat, idx: map<string, nat>, e: Event)
    returns (m: nat, index: map<string, nat>)
    requires n < out.Length && Indexed(out[..n], idx)
    modifies out
    ensures n <= m <= n + 1 && (out[..m], index) == Overlay(old(out[..n]), idx, e)
  {
    m, index := n, idx;
    if e.name in idx {
      var i := idx[e.name];
      if e.last > out[i].last || e.count > out[i].count {
        out[i] := e;
      }
    } else {
      index := idx[e.name := n];
      out[n] := e;
      m := n + 1;
      assert out[..m] == old(out[..n]) + [e];
    }
  }

  /** The overlay built so far, when the first x events of the feed are in it. */
  ghost predicate Overlaid(base: seq<Event>, extra: seq<Event>, x: nat, out: seq<Event>, idx: map<string, nat>) {
    && x <= |extra| && Indexed(out, idx)
    && Looked(out, idx) == MergeMaps(ByName(base), ByName(extra[..x]))
  }

  lemma NothingOverlaid(base: seq<Event>, extra: seq<Event>, idx: map<string, nat>)
    requires DistinctNames(base) && Indexed(base, idx)
    ensures Overlaid(base, extra, 0, base, idx)
  {
    IndexedHolds(base, idx);
    ByNameHolds(base);
    HoldsUnique(base, ByName(base), Looked(base, idx));
    assert MergeMaps(ByName(base), ByName(extra[..0])) == ByName(base);
  }

  lemma OverlaidNext(base: seq<Event>, extra: seq<Event>, x: nat, out: seq<Event>, idx: map<string, nat>)
    requires DistinctNames(extra) && x < |extra| && Overlaid(base, extra, x, out, idx)
    ensures var r := Overlay(out, idx, extra[x]); Overlaid(base, extra, x + 1, r.0, r.1)
  {
    OverlayLooked(out, idx, extra[x]);
    FreshName(extra, x);
    MergeOneMore(ByName(base), ByName(extra[..x]), extra[x]);
  }

  method OverlayAll(base: array<Event>, extra: array<Event>) returns (out: array<Event>, n: nat)
    requires DistinctNames(base[..]) && DistinctNames(extra[..])
    ensures fresh(out) && n <= out.Length
    ensures Holds(out[..n], MergeMaps(ByName(base[..]), ByName(extra[..])))
  {
    out := CopyWithRoom(base, extra.Length);
    n := base.Length;
    var idx := IndexNames(out[..n]);
    NothingOverlaid(base[..], extra[..], idx);
    for x := 0 to extra.Length
      invariant n <= base.Length + x && Overlaid(base[..], extra[..], x, out[..n], idx)
    {
      OverlaidNext(base[..], extra[..], x, out[..n], idx);
      n, idx := OverlayOne(out, n, idx, extra[x]);
    }
    assert extra[..][..extra.Length] == extra[..];
    IndexedHolds(out[..n], idx);
  }

  /** `sort.SliceStable` on the first n events of a buffer. */
  method SortInPlace(out: array<Event>, n: nat)
    requires n <= out.Length
    modifies out
    ensures out[..n] == StableSort(old(out[..n]), NewestFirst)
    ensures Permutes(out[..n], old(out[..n])) && Sorted(out[..n], NewestFirst)
  {
    var sorted := SortNewestFirst(out[..n]);
    PermutesMembers(sorted, out[..n]);
    for i := 0 to n
      invariant out[..i] == sorted[..i]
    {
      out[i] := sorted[i];
    }
    assert sorted[..n] == sorted;
  }

  /** Later times first; at one time by namespace, and in a namespace by name. */
  ghost predicate InFeedOrder(es: seq<Event>) {
    forall i, j :: 0 <= i < j < |es| ==>
      && es[i].last >= es[j].last
      && (es[i].last == es[j].last ==>
          es[i].namespace == es[j].namespace || StringLess(es[i].namespace, es[j].namespace))
      && (es[i].last == es[j].last && es[i].namespace == es[j].namespace ==>
            es[i].name == es[j].name || StringLess(es[i].name, es[j].name))
  }

  lemma SortedIsFeedOrder(es: seq<Event>)
    ensures Sorted(es, NewestFirst) <==> InFeedOrder(es)
  {
    forall i, j | 0 <= i < j < |es|
      ensures !NewestFirst(es[j], es[i]) <==>
        && es[i].last >= es[j].last
        && (es[i].last == es[j].last ==>
            es[i].namespace == es[j].namespace || StringLess(es[i].namespace, es[j].namespace))
        && (es[i].last == es[j].last && es[i].namespace == es[j].namespace ==>
              es[i].name == es[j].name || StringLess(es[i].name, es[j].name))
    {
      StringLessTrichotomy(es[i].namespace, es[j].namespace);
      StringLessTrichotomy(es[i].name, es[j].name);
      if StringLess(es[i].namespace, es[j].namespace) {
        StringLessAsymmetric(es[i].namespace, es[j].namespace);
      }
      if StringLess(es[i].name, es[j].name) {
        StringLessAsymmetric(es[i].name, es[j].name);
      }
    }
  }

  /** The first list itself when the feed has nothing; otherwise a new one. Neither list is written to. */
  method MergeEvents(base: array<Event>, extra: array<Event>) returns (out: array<Event>, n: nat)
    requires UniqueNames(base[..]) && UniqueNames(extra[..])
    ensures n <= out.Length && IsMerge(base[..], extra[..], out[..n])
    ensures if extra.Length == 0 then out == base else fresh(out) && InFeedOrder(out[..n])
  {
    if extra.Length == 0 {
      assert base[..base.Length] == base[..];
      return base, base.Length;
    }
    out, n := OverlayAll(base, extra);
    ghost var merged := out[..n];
    SortInPlace(out, n);
    SortedIsFeedOrder(out[..n]);
    PermutesHolds(merged, out[..n], MergeMaps(ByName(base[..]), ByName(extra[..])));
  }

  // ---- What merging guarantees ---------------------------------------------

  /** An event of the merge is one of the two lists' copies of it. */
  lemma MergeMember(base: seq<Event>, extra: seq<Event>, n: string)
    requires UniqueNames(base) && UniqueNames(extra) && n in MergeMaps(ByName(base), ByName(extra))
    ensures var r := MergeMaps(ByName(base), ByName(extra))[n]; r.name == n && (r in base || r in extra)
  {
    ByNameHolds(base);
    ByNameHolds(extra);
  }

  lemma MergeNamespace(base: seq<Event>, extra: seq<Event>)
    requires OneNamespace(base, extra)
    ensures InOneNamespace(MergeMaps(ByName(base), ByName(extra)))
  {
    var m := MergeMaps(ByName(base), ByName(extra));
    forall n, n' | n in m && n' in m ensures m[n].namespace == m[n'].namespace {
      MergeMember(base, extra, n);
      MergeMember(base, extra, n');
    }
  }

  /** There is one merge of two lists. */
  lemma MergeUnique(base: seq<Event>, extra: seq<Event>, out: seq<Event>, out': seq<Event>)
    requires OneNamespace(base, extra) && IsMerge(base, extra, out) && IsMerge(base, extra, out')
    ensures out == out'
  {
    if extra != [] {
      MergeNamespace(base, extra);
      ArrangementUnique(out, out', MergeMaps(ByName(base), ByName(extra)));
    }
  }

  /** The order of the cached lists does not matter once the feed has an event. */
  lemma MergeIgnoresOrder(base: seq<Event>, base': seq<Event>, extra: seq<Event>, extra': seq<Event>,
                          out: seq<Event>, out': seq<Event>)
    requires OneNamespace(base, extra) && Permutes(base', base) && Permutes(extra', extra) && extra != []
    requires IsMerge(base, extra, out) && IsMerge(base', extra', out')
    ensures out == out'
  {
    PermutesMembers(extra', extra);
    SameByName(base, base');
    SameByName(extra, extra');
    MergeUnique(base, extra, out, out');
  }

  lemma SameByName(es: seq<Event>, fs: seq<Event>)
    requires UniqueNames(es) && Permutes(fs, es)
    ensures ByName(fs) == ByName(es)
  {
    ByNameHolds(es);
    PermutesHolds(es, fs, ByName(es));
    ByNameHolds(fs);
    HoldsUnique(fs, ByName(fs), ByName(es));
  }

  lemma MergeMapsIdempotent(bm: map<string, Event>, em: map<string, Event>)
    ensures MergeMaps(MergeMaps(bm, em), em) == MergeMaps(bm, em)
  {
  }

  /** Merging the same feed again changes nothing, whatever order the base was in. */
  lemma MergeIdempotent(base: seq<Event>, extra: seq<Event>, once: seq<Event>, twice: seq<Event>)
    requires OneNamespace(base, extra)
    requires IsMerge(base, extra, once) && IsMerge(once, extra, twice)
    ensures twice == once
  {
    if extra != [] {
      var m := MergeMaps(ByName(base), ByName(extra));
      ByNameHolds(once);
      HoldsUnique(once, ByName(once), m);
      MergeMapsIdempotent(ByName(base), ByName(extra));
      MergeNamespace(base, extra);
      ArrangementUnique(twice, once, m);
    }
  }

  /** A merge loses no event: every name of either list is there, in a copy that no other copy beats. */
  lemma MergeKeepsEvery(base: seq<Event>, extra: seq<Event>, out: seq<Event>, e: Event) returns (r: Event)
    requires OneNamespace(base, extra) && IsMerge(base, extra, out)
    requires e in base || e in extra
    ensures r in out && r.name == e.name && (r in base || r in extra)
    ensures e in extra ==> r.last >= e.last && r.count >= e.count
    ensures e in base ==> r == e || r.last > e.last || r.count > e.count
  {
    if extra == [] {
      r := e;
    } else {
      var m := MergeMaps(ByName(base), ByName(extra));
      ByNameHolds(base);
      ByNameHolds(extra);
      r := m[e.name];
      MergeMember(base, extra, e.name);
    }
  }
}
