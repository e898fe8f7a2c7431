/** The whole namespace page (main.go): nothing lost, nothing counted twice. */
module FamilyLaws {
  import opened Families
  import opened Forest
  import opened Groups
  import opened Sequences
  import opened Strings

  ghost function Occurs(x: ObjRef): Node -> int {
    (t: Node) => multiset(Refs(t))[x]
  }

  lemma {:induction false} AllRefsCount(ts: seq<Node>, x: ObjRef)
    ensures multiset(AllRefs(ts))[x] == SumBy(ts, Occurs(x))
  {
    if ts != [] {
      AllRefsCount(ts[..|ts| - 1], x);
    }
  }

  lemma AllRefsPermutes(ts: seq<Node>, us: seq<Node>)
    requires Permutes(ts, us)
    ensures Permutes(AllRefs(ts), AllRefs(us))
  {
    forall x ensures multiset(AllRefs(ts))[x] == multiset(AllRefs(us))[x] {
      AllRefsCount(ts, x);
      AllRefsCount(us, x);
      SumByPermutation(ts, us, Occurs(x));
    }
  }

  // ---- Totals --------------------------------------------------------------

  lemma {:induction false} TotalByKey(byKey: Index, objects: seq<ObjectEvents>, f: ObjectEvents -> int)
    requires forall o :: o in objects ==> o.ref in byKey && byKey[o.ref] == o
    ensures SumBy(Keys(objects), Field(byKey, f)) == SumBy(objects, f)
  {
    if objects != [] {
      var front, last := objects[..|objects| - 1], objects[|objects| - 1];
      TotalByKey(byKey, front, f);
      assert Keys(objects)[..|objects| - 1] == Keys(front) && Keys(objects)[|objects| - 1] == last.ref;
      assert last in objects;
    }
  }

  lemma {:induction false} FamilyTotals(byKey: Index, families: seq<Family>)
    requires forall f :: f in families ==> FamilyOk(byKey, f)
    ensures SumBy(families, FamilyWarnings()) == SumBy(AllRefs(Map(RootNode(), families)), Field(byKey, Warnings()))
    ensures SumBy(families, FamilyNormals()) == SumBy(AllRefs(Map(RootNode(), families)), Field(byKey, Normals()))
  {
    if families != [] {
      var front, last := families[..|families| - 1], families[|families| - 1];
      FamilyTotals(byKey, front);
      assert last in families && FamilyOk(byKey, last);
      var ts := Map(RootNode(), families);
      assert ts[..|ts| - 1] == Map(RootNode(), front);
      SumByConcat(AllRefs(Map(RootNode(), front)), Refs(last.root), Field(byKey, Warnings()));
      SumByConcat(AllRefs(Map(RootNode(), front)), Refs(last.root), Field(byKey, Normals()));
    }
  }

  lemma TotalConserved(byKey: Index, objects: seq<ObjectEvents>, refs: seq<ObjRef>, orphans: seq<ObjectEvents>,
                       f: ObjectEvents -> int)
    requires forall o :: o in objects ==> o.ref in byKey && byKey[o.ref] == o
    requires (forall o :: o in orphans ==> o in objects) && Permutes(refs + Keys(orphans), Keys(objects))
    ensures SumBy(refs, Field(byKey, f)) + SumBy(orphans, f) == SumBy(objects, f)
  {
    TotalByKey(byKey, objects, f);
    TotalByKey(byKey, orphans, f);
    SumByConcat(refs, Keys(orphans), Field(byKey, f));
    SumByPermutation(refs + Keys(orphans), Keys(objects), Field(byKey, f));
  }

  // ---- The order of the families -------------------------------------------

  /** Cascades first, then families with warnings, then by the root's name. */
  predicate FamilyLess(a: Family, b: Family) {
    if a.cascade != b.cascade then a.cascade
    else if a.hasWarning != b.hasWarning then a.hasWarning
    else StringLess(a.root.ref.name, b.root.ref.name)
  }

  /** What may stand above what on the page. */
  ghost predicate InFamilyOrder(families: seq<Family>) {
    forall i, j :: 0 <= i < j < |families| ==>
      var a, b := families[i], families[j];
      && (b.cascade ==> a.cascade)
      && (a.cascade == b.cascade ==>
            && (b.hasWarning ==> a.hasWarning)
            && (a.hasWarning == b.hasWarning ==>
                  a.root.ref.name == b.root.ref.name || StringLess(a.root.ref.name, b.root.ref.name)))
  }

  lemma SortedInFamilyOrder(families: seq<Family>)
    requires Sorted(families, FamilyLess)
    ensures InFamilyOrder(families)
  {
    forall i, j | 0 <= i < j < |families|
      ensures var a, b := families[i].root.ref.name, families[j].root.ref.name;
              a == b || StringLess(a, b) || StringLess(b, a)
    {
      StringLessTrichotomy(families[i].root.ref.name, families[j].root.ref.name);
    }
  }

  lemma FamilyLessIsWeakOrder()
    ensures WeakOrder(FamilyLess)
  {
    StringLessIsWeakOrder();
  }

  // ---- Everything together -------------------------------------------------

  /** The page of a list of objects: whole trees of what the names suggest, with their totals, and every object
      exactly once, in a family or alone. */
  ghost predicate IsPage(objects: seq<ObjectEvents>, families: seq<Family>, orphans: seq<ObjectEvents>) {
    var keys, byKey, nodes := Keys(objects), IndexOf(objects), Map(RootNode(), families);
    && IsForest(keys, UpOf(keys))
    && AllGood(keys, UpOf(keys), byKey, families)
    && Permutes(AllRefs(nodes) + Keys(orphans), keys)
    && Sorted(families, FamilyLess)
    && (forall o :: o in orphans ==> o in objects)
  }

  /** A page counts every warning and every normal event once. */
  lemma CountsConserved(objects: seq<ObjectEvents>, families: seq<Family>, orphans: seq<ObjectEvents>)
    requires Distinct(Keys(objects)) && IsPage(objects, families, orphans)
    ensures SumBy(families, FamilyWarnings()) + SumBy(orphans, Warnings()) == SumBy(objects, Warnings())
    ensures SumBy(families, FamilyNormals()) + SumBy(orphans, Normals()) == SumBy(objects, Normals())
  {
    var byKey, refs := IndexOf(objects), AllRefs(Map(RootNode(), families));
    IndexOfFinds(objects);
    forall f | f in families ensures FamilyOk(byKey, f) {
      assert Good(Keys(objects), UpOf(Keys(objects)), byKey, f);
    }
    FamilyTotals(byKey, families);
    TotalConserved(byKey, objects, refs, orphans, Warnings());
    TotalConserved(byKey, objects, refs, orphans, Normals());
  }

  /** An object stands alone on a page exactly when no name points from it or to it. */
  ghost predicate Alone(keys: seq<ObjRef>, x: ObjRef) {
    x !in UpOf(keys) && forall c :: c in UpOf(keys) ==> UpOf(keys)[c] != x
  }

  lemma OrphansAlone(keys: seq<ObjRef>, up: Parents, roots: seq<ObjRef>, room: nat, orphans: seq<ObjRef>)
    requires IsForest(keys, up) && up == UpOf(keys) && Distinct(roots) && Below(keys, roots, room)
    requires forall r :: r in roots <==> IsRoot(keys, up, r)
    requires forall x :: x in orphans <==> x in keys && x !in AllRefs(Trees(keys, up, roots, 0, room))
    ensures forall x :: x in orphans <==> x in keys && !SomeReaches(up, roots, x)
    ensures forall x :: x in orphans <==> x in keys && Alone(keys, x)
  {
    var all := AllRefs(Trees(keys, up, roots, 0, room));
    forall x ensures x in all <==> SomeReaches(up, roots, x) {
      RootsReachOnce(up, roots, x);
      TreesCount(keys, up, roots, 0, room, x);
      assert x in all <==> x in multiset(all);
    }
    forall x | x in keys ensures SomeReaches(up, roots, x) <==> !Alone(keys, x) {
      InFamilyExactly(keys, up, roots, x);
    }
  }

  lemma PageSorted(objects: seq<ObjectEvents>, grown: seq<Family>, families: seq<Family>, orphans: seq<ObjectEvents>)
    requires Permutes(families, grown) && Sorted(families, FamilyLess)
    requires IsForest(Keys(objects), UpOf(Keys(objects)))
    requires AllGood(Keys(objects), UpOf(Keys(objects)), IndexOf(objects), grown)
    requires forall o :: o in orphans ==> o in objects
    requires Permutes(AllRefs(Map(RootNode(), grown)) + Keys(orphans), Keys(objects))
    ensures IsPage(objects, families, orphans)
  {
    PermutesMembers(families, grown);
    MapPermutes(RootNode(), families, grown);
    AllRefsPermutes(Map(RootNode(), families), Map(RootNode(), grown));
  }

  method GrowPage(objects: seq<ObjectEvents>) returns (grown: seq<Family>, orphans: seq<ObjectEvents>)
    requires Distinct(Keys(objects))
    ensures IsForest(Keys(objects), UpOf(Keys(objects)))
    ensures AllGood(Keys(objects), UpOf(Keys(objects)), IndexOf(objects), grown)
    ensures Permutes(AllRefs(Map(RootNode(), grown)) + Keys(orphans), Keys(objects))
    ensures forall o :: o in orphans ==> o in objects
    ensures forall x :: x in Keys(orphans) <==> x in Keys(objects) && Alone(Keys(objects), x)
  {
    var keys := Keys(objects);
    var byKey := IndexObjects(objects);
    IndexOfFinds(objects);
    var up := FindParents(keys);
    ParentsAre(keys, up);
    ParentsFormForest(keys, up);
    var childrenOf, listed := IndexChildren(up);
    var roots := FindRoots(keys, up, listed, childrenOf);
    ghost var room := Longest(keys) + 1;
    var claimed;
    grown, claimed := GrowFamilies(keys, up, byKey, listed, childrenOf, roots, room);
    orphans := FindOrphans(objects, claimed);
    OrphansAlone(keys, up, roots, room, Keys(orphans));
    EachObjectOnce(keys, up, roots, room, Keys(orphans));
  }

  /** Building the page: every object ends up exactly once in a family or alone, and alone exactly when no name
      points from it or to it. */
  method BuildFamilies(objects: seq<ObjectEvents>) returns (families: seq<Family>, orphans: seq<ObjectEvents>)
    requires Distinct(Keys(objects))
    ensures IsPage(objects, families, orphans)
    ensures forall x :: x in Keys(orphans) <==> x in Keys(objects) && Alone(Keys(objects), x)
    ensures InFamilyOrder(families)
  {
    var grown;
    grown, orphans := GrowPage(objects);
    FamilyLessIsWeakOrder();
    families := Sort(grown, FamilyLess);
    SortedInFamilyOrder(families);
    PageSorted(objects, grown, families, orphans);
  }
}
