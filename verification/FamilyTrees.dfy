/** A family, told by its objects (main.go): how its tree is wired, and what its totals count. */
module FamilyTrees {
  import opened Families
  import opened FamilyLaws
  import opened Forest
  import opened Groups
  import opened Names
  import opened Sequences
  import opened Strings

  // ---- The tree ------------------------------------------------------------

  ghost predicate KindThenName(a: ObjRef, b: ObjRef) {
    StringLess(a.kind, b.kind) || (a.kind == b.kind && StringLess(a.name, b.name))
  }

  /** The children are the objects whose names point to k, by kind and then by name. */
  ghost predicate ChildrenAre(keys: seq<ObjRef>, k: ObjRef, cs: seq<ObjRef>) {
    && (forall i, j :: 0 <= i < j < |cs| ==> KindThenName(cs[i], cs[j]))
    && (forall c :: c in cs <==> c in keys && DetectParent(c, Has(keys)) == Some(k))
  }

  function RefAt(): Node -> ObjRef {
    (t: Node) => t.ref
  }

  /** Every node of the tree has its children under it, a level further down. */
  ghost predicate Wired(keys: seq<ObjRef>, t: Node, depth: nat)
    decreases t, 0
  {
    t.depth == depth && ChildrenAre(keys, t.ref, Map(RefAt(), t.children)) && AllWired(keys, t.children, depth + 1)
  }

  ghost predicate AllWired(keys: seq<ObjRef>, ts: seq<Node>, depth: nat)
    decreases ts, 1
  {
    forall i :: 0 <= i < |ts| ==> Wired(keys, ts[i], depth)
  }

  lemma ChildrenExactly(keys: seq<ObjRef>, k: ObjRef)
    requires IsForest(keys, UpOf(keys))
    ensures ChildrenAre(keys, k, Children(keys, UpOf(keys), k))
  {
    var up := UpOf(keys);
    var cs := Children(keys, up, k);
    RefLessIsTotal();
    ChildrenMembers(keys, up, k);
    StableSortSorted(Filter(keys, IsChildOf(up, k)), RefLess);
    forall i, j | 0 <= i < j < |cs| ensures KindThenName(cs[i], cs[j]) {
      assert !RefLess(cs[j], cs[i]) && cs[i] != cs[j];
      StringLessTrichotomy(cs[i].kind, cs[j].kind);
      StringLessTrichotomy(cs[i].name, cs[j].name);
    }
  }

  ghost predicate ChildrenKnown(keys: seq<ObjRef>, up: Parents) {
    forall k {:trigger Children(keys, up, k)} :: ChildrenAre(keys, k, Children(keys, up, k))
  }

  /** Trees for these objects, all wired. */
  ghost predicate WiredFor(keys: seq<ObjRef>, cs: seq<ObjRef>, ts: seq<Node>, depth: nat) {
    Map(RefAt(), ts) == cs && AllWired(keys, ts, depth)
  }

  lemma OneMoreTree(keys: seq<ObjRef>, cs: seq<ObjRef>, ts: seq<Node>, c: ObjRef, t: Node, depth: nat)
    requires WiredFor(keys, cs, ts, depth) && Wired(keys, t, depth) && t.ref == c
    ensures WiredFor(keys, cs + [c], ts + [t], depth)
  {
  }

  lemma LastTree(keys: seq<ObjRef>, up: Parents, cs: seq<ObjRef>, depth: nat, room: nat)
    requires IsForest(keys, up) && Below(keys, cs, room) && cs != []
    ensures Below(keys, cs[..|cs| - 1], room) && cs[|cs| - 1] in keys && Room(keys, cs[|cs| - 1]) < room
    ensures var n := |cs| - 1;
            && cs == cs[..n] + [cs[n]] && Tree(keys, up, cs[n], depth).ref == cs[n]
            && Trees(keys, up, cs, depth, room) == Trees(keys, up, cs[..n], depth, room)
                + [Tree(keys, up, cs[n], depth)]
  {
    assert cs[|cs| - 1] in cs && forall c :: c in cs[..|cs| - 1] ==> c in cs;
  }

  lemma {:induction false} TreeIsWired(keys: seq<ObjRef>, up: Parents, k: ObjRef, depth: nat)
    requires IsForest(keys, up) && ChildrenKnown(keys, up) && k in keys
    ensures Wired(keys, Tree(keys, up, k, depth), depth)
    decreases Room(keys, k), 1, 0
  {
    var cs := Children(keys, up, k);
    ChildrenBelow(keys, up, k);
    TreesAreWired(keys, up, cs, depth + 1, Room(keys, k));
  }

  lemma {:induction false} TreesAreWired(keys: seq<ObjRef>, up: Parents, cs: seq<ObjRef>, depth: nat, room: nat)
    requires IsForest(keys, up) && ChildrenKnown(keys, up) && Below(keys, cs, room)
    ensures WiredFor(keys, cs, Trees(keys, up, cs, depth, room), depth)
    decreases room, 0, |cs|
  {
    if cs == [] {
      assert Trees(keys, up, cs, depth, room) == [];
    } else {
      var n := |cs| - 1;
      LastTree(keys, up, cs, depth, room);
      TreesAreWired(keys, up, cs[..n], depth, room);
      TreeIsWired(keys, up, cs[n], depth);
      OneMoreTree(keys, cs[..n], Trees(keys, up, cs[..n], depth, room), cs[n], Tree(keys, up, cs[n], depth), depth);
    }
  }

  // ---- Its totals ----------------------------------------------------------

  ghost function WarningsOf(byKey: Index, refs: seq<ObjRef>): int
    requires forall r :: r in refs ==> r in byKey
  {
    if refs == [] then 0 else WarningsOf(byKey, refs[..|refs| - 1]) + byKey[refs[|refs| - 1]].warnings
  }

  ghost function NormalsOf(byKey: Index, refs: seq<ObjRef>): int
    requires forall r :: r in refs ==> r in byKey
  {
    if refs == [] then 0 else NormalsOf(byKey, refs[..|refs| - 1]) + byKey[refs[|refs| - 1]].normals
  }

  lemma {:induction false} CountsAre(byKey: Index, refs: seq<ObjRef>)
    requires forall r :: r in refs ==> r in byKey
    ensures SumBy(refs, Field(byKey, Warnings())) == WarningsOf(byKey, refs)
    ensures SumBy(refs, Field(byKey, Normals())) == NormalsOf(byKey, refs)
  {
    if refs != [] {
      CountsAre(byKey, refs[..|refs| - 1]);
    }
  }

  /** Every object below which there is none has a warning. */
  ghost predicate EndsWarn(byKey: Index, t: Node)
    decreases t, 0
  {
    if t.children == [] then t.ref in byKey && byKey[t.ref].hasWarning else AllEndsWarn(byKey, t.children)
  }

  ghost predicate AllEndsWarn(byKey: Index, ts: seq<Node>)
    decreases ts, 1
  {
    forall i :: 0 <= i < |ts| ==> EndsWarn(byKey, ts[i])
  }

  lemma {:induction false} EndsAre(byKey: Index, t: Node)
    ensures AllWarn(byKey, Leaves(t)) <==> EndsWarn(byKey, t)
    decreases t, 1
  {
    if t.children == [] {
      assert t.ref in Leaves(t);
    } else {
      AllEndsAre(byKey, t.children);
    }
  }

  lemma {:induction false} AllEndsAre(byKey: Index, ts: seq<Node>)
    ensures AllWarn(byKey, AllLeaves(ts)) <==> AllEndsWarn(byKey, ts)
    decreases ts, 0
  {
    if ts != [] {
      var n := |ts| - 1;
      AllEndsAre(byKey, ts[..n]);
      EndsAre(byKey, ts[n]);
      AllWarnConcat(byKey, AllLeaves(ts[..n]), Leaves(ts[n]));
      EndsStep(byKey, ts);
    }
  }

  lemma AllWarnConcat(byKey: Index, xs: seq<ObjRef>, ys: seq<ObjRef>)
    ensures AllWarn(byKey, xs + ys) <==> AllWarn(byKey, xs) && AllWarn(byKey, ys)
  {
    assert forall r :: r in xs + ys <==> r in xs || r in ys;
  }

  lemma EndsStep(byKey: Index, ts: seq<Node>)
    requires ts != []
    ensures AllEndsWarn(byKey, ts) <==> AllEndsWarn(byKey, ts[..|ts| - 1]) && EndsWarn(byKey, ts[|ts| - 1])
  {
    var front := ts[..|ts| - 1];
    if AllEndsWarn(byKey, front) && EndsWarn(byKey, ts[|ts| - 1]) {
      forall i | 0 <= i < |ts| ensures EndsWarn(byKey, ts[i]) {
        assert i < |front| ==> front[i] == ts[i] && EndsWarn(byKey, front[i]);
      }
    }
  }

  /** What a family tells of the objects in its tree. */
  ghost predicate TellsOf(byKey: Index, f: Family)
    requires forall r :: r in Refs(f.root) ==> r in byKey
  {
    var refs := Refs(f.root);
    && f.warnings == WarningsOf(byKey, refs) && f.normals == NormalsOf(byKey, refs)
    && (f.hasWarning <==> exists r :: r in refs && byKey[r].hasWarning)
    && (f.idle <==> f.hasWarning && forall r :: r in refs && byKey[r].hasWarning ==> byKey[r].idle)
    && (f.cascade <==> f.root.ref in byKey && byKey[f.root.ref].hasWarning && EndsWarn(byKey, f.root))
  }

  lemma FamilyTells(byKey: Index, f: Family)
    requires FamilyOk(byKey, f) && forall r :: r in Refs(f.root) ==> r in byKey
    ensures TellsOf(byKey, f)
  {
    CountsAre(byKey, Refs(f.root));
    EndsAre(byKey, f.root);
    assert SomeWarns(byKey, Refs(f.root)) <==> exists r :: r in Refs(f.root) && byKey[r].hasWarning;
    assert SomeWarnsNow(byKey, Refs(f.root)) <==>
           exists r :: r in Refs(f.root) && byKey[r].hasWarning && !byKey[r].idle;
  }

  // ---- The page ------------------------------------------------------------

  /** Every family of a page is a whole tree of what the names suggest, with the totals of its objects. */
  lemma PageTells(objects: seq<ObjectEvents>, families: seq<Family>, orphans: seq<ObjectEvents>, f: Family)
    requires Distinct(Keys(objects)) && IsPage(objects, families, orphans) && f in families
    ensures Wired(Keys(objects), f.root, 0)
    ensures (forall r :: r in Refs(f.root) ==> r in IndexOf(objects)) && TellsOf(IndexOf(objects), f)
  {
    var keys := Keys(objects);
    assert Good(keys, UpOf(keys), IndexOf(objects), f);
    forall k ensures ChildrenAre(keys, k, Children(keys, UpOf(keys), k)) {
      ChildrenExactly(keys, k);
    }
    TreeIsWired(keys, UpOf(keys), f.root.ref, 0);
    IndexOfFinds(objects);
    forall r | r in Refs(f.root) ensures r in IndexOf(objects) {
      TreeMembers(keys, UpOf(keys), f.root.ref, 0, r);
    }
    FamilyTells(IndexOf(objects), f);
  }
}
