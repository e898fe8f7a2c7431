/** The families of a namespace page (main.go): trees of objects guessed from names, with their totals. */
module Families {
  import opened Forest
  import opened Groups
  import opened Names
  import opened Sequences
  import opened Strings

  /** An object of the page, with what its events add up to. */
  datatype ObjectEvents = ObjectEvents(ref: ObjRef, warnings: int, normals: int, hasWarning: bool, idle: bool)

  datatype Family = Family(root: Node, warnings: int, normals: int, hasWarning: bool, idle: bool, cascade: bool)

  type Index = map<ObjRef, ObjectEvents>

  function RefOf(): ObjectEvents -> ObjRef {
    (o: ObjectEvents) => o.ref
  }

  function Keys(objects: seq<ObjectEvents>): seq<ObjRef> {
    Map(RefOf(), objects)
  }

  function Has(keys: seq<ObjRef>): ObjRef -> bool {
    k => k in keys
  }

  /** Every object's parent is what its name points to among the objects at hand. */
  ghost predicate ParentsOf(keys: seq<ObjRef>, up: Parents) {
    forall k {:trigger k in up} :: (k in up <==> k in keys && DetectParent(k, Has(keys)).Some?)
                                   && (k in up ==> up[k] == DetectParent(k, Has(keys)).value)
  }

  /** The parents of a list of objects. */
  ghost function UpOf(keys: seq<ObjRef>): Parents {
    map k | k in keys && DetectParent(k, Has(keys)).Some? :: DetectParent(k, Has(keys)).value
  }

  lemma ParentsAre(keys: seq<ObjRef>, up: Parents)
    requires ParentsOf(keys, up)
    ensures up == UpOf(keys)
  {
    forall k ensures k in up <==> k in UpOf(keys) {
      assert k in up <==> k in keys && DetectParent(k, Has(keys)).Some?;
    }
  }

  /** Parents' names are shorter, so there is no cycle. */
  lemma ParentsFormForest(keys: seq<ObjRef>, up: Parents)
    requires Distinct(keys) && ParentsOf(keys, up)
    ensures IsForest(keys, up)
  {
  }

  method FindParents(keys: seq<ObjRef>) returns (up: Parents)
    ensures ParentsOf(keys, up)
  {
    up := map[];
    for i := 0 to |keys|
      invariant forall k {:trigger k in up} :: (k in up <==> k in keys[..i] && DetectParent(k, Has(keys)).Some?)
                                               && (k in up ==> up[k] == DetectParent(k, Has(keys)).value)
    {
      PrefixStep(keys, i);
      var p := DetectParent(keys[i], Has(keys));
      if p.Some? {
        up := up[keys[i] := p.value];
      }
    }
    assert keys[..|keys|] == keys;
  }

  // ---- Children ------------------------------------------------------------

  function Kids(childrenOf: map<ObjRef, seq<ObjRef>>, k: ObjRef): seq<ObjRef> {
    if k in childrenOf then childrenOf[k] else []
  }

  /** The children of k among those listed, in some order. */
  ghost predicate KidsOk(listed: seq<ObjRef>, up: Parents, k: ObjRef, kids: seq<ObjRef>) {
    Distinct(kids) && forall c :: c in kids <==> c in listed && c in up && up[c] == k
  }

  ghost predicate ChildrenOk(listed: seq<ObjRef>, up: Parents, childrenOf: map<ObjRef, seq<ObjRef>>) {
    forall k {:trigger Kids(childrenOf, k)} ::
      KidsOk(listed, up, k, Kids(childrenOf, k)) && (k in childrenOf <==> Kids(childrenOf, k) != [])
  }

  lemma ChildrenStep(listed: seq<ObjRef>, up: Parents, childrenOf: map<ObjRef, seq<ObjRef>>, c: ObjRef)
    requires ChildrenOk(listed, up, childrenOf) && c in up && c !in listed
    ensures ChildrenOk(listed + [c], up, childrenOf[up[c] := Kids(childrenOf, up[c]) + [c]])
  {
    var childrenOf' := childrenOf[up[c] := Kids(childrenOf, up[c]) + [c]];
    forall k ensures KidsOk(listed + [c], up, k, Kids(childrenOf', k))
        && (k in childrenOf' <==> Kids(childrenOf', k) != []) {
      assert KidsOk(listed, up, k, Kids(childrenOf, k));
    }
  }

  method IndexChildren(up: Parents) returns (childrenOf: map<ObjRef, seq<ObjRef>>, listed: seq<ObjRef>)
    ensures ChildrenOk(listed, up, childrenOf) && forall c :: c in listed <==> c in up
  {
    childrenOf := map[];
    listed := IterationOrder(up.Keys);
    for i := 0 to |listed|
      invariant ChildrenOk(listed[..i], up, childrenOf)
    {
      var c := listed[i];
      PrefixStep(listed, i);
      assert c in up;
      ChildrenStep(listed[..i], up, childrenOf, c);
      childrenOf := childrenOf[up[c] := Kids(childrenOf, up[c]) + [c]];
    }
    assert listed[..|listed|] == listed;
  }

  lemma RefLessIsTotal()
    ensures WeakOrder(RefLess)
    ensures forall a, b :: !RefLess(a, b) && !RefLess(b, a) ==> a == b
  {
    StringLessTotal();
  }

  /** Whatever order the children were indexed in, sorting leaves one. */
  method SortedKids(keys: seq<ObjRef>, up: Parents, listed: seq<ObjRef>, childrenOf: map<ObjRef, seq<ObjRef>>,
                    k: ObjRef) returns (kids: seq<ObjRef>)
    requires IsForest(keys, up) && ChildrenOk(listed, up, childrenOf) && forall c :: c in listed <==> c in up
    ensures kids == Children(keys, up, k)
  {
    RefLessIsTotal();
    kids := Sort(Kids(childrenOf, k), RefLess);
    assert KidsOk(listed, up, k, Kids(childrenOf, k));
    var found := Filter(keys, IsChildOf(up, k));
    StableSortPermutes(found, RefLess);
    StableSortSorted(found, RefLess);
    ChildrenMembers(keys, up, k);
    PermutesMembers(kids, Kids(childrenOf, k));
    PermutesDistinct(kids, Kids(childrenOf, k));
    DistinctPermutes(kids, Children(keys, up, k));
    SortedUnique(kids, Children(keys, up, k), RefLess);
  }

  // ---- Trees ---------------------------------------------------------------

  method Wire(keys: seq<ObjRef>, up: Parents, listed: seq<ObjRef>, childrenOf: map<ObjRef, seq<ObjRef>>, k: ObjRef,
              depth: nat) returns (t: Node)
    requires IsForest(keys, up) && ChildrenOk(listed, up, childrenOf) && (forall c :: c in listed <==> c in up)
        && k in keys
    ensures t == Tree(keys, up, k, depth)
    decreases Room(keys, k)
  {
    var kids := SortedKids(keys, up, listed, childrenOf, k);
    ChildrenBelow(keys, up, k);
    var children: seq<Node> := [];
    for i := 0 to |kids|
      invariant Below(keys, kids[..i], Room(keys, k))
      invariant children == Trees(keys, up, kids[..i], depth + 1, Room(keys, k))
    {
      PrefixStep(kids, i);
      assert kids[i] in kids;
      var c := Wire(keys, up, listed, childrenOf, kids[i], depth + 1);
      children := children + [c];
    }
    assert kids[..|kids|] == kids;
    t := Node(k, depth, children);
  }

  function Field(byKey: Index, f: ObjectEvents -> int): ObjRef -> int {
    r => if r in byKey then f(byKey[r]) else 0
  }

  function Warnings(): ObjectEvents -> int {
    (o: ObjectEvents) => o.warnings
  }

  function Normals(): ObjectEvents -> int {
    (o: ObjectEvents) => o.normals
  }

  predicate Warns(byKey: Index, r: ObjRef) {
    r in byKey && byKey[r].hasWarning
  }

  predicate WarnsNow(byKey: Index, r: ObjRef) {
    Warns(byKey, r) && !byKey[r].idle
  }

  ghost predicate SomeWarns(byKey: Index, refs: seq<ObjRef>) {
    exists r :: r in refs && Warns(byKey, r)
  }

  ghost predicate SomeWarnsNow(byKey: Index, refs: seq<ObjRef>) {
    exists r :: r in refs && WarnsNow(byKey, r)
  }

  /** What a walk over a tree adds up. */
  datatype Stats = Stats(warnings: int, normals: int, warned: bool, active: bool)

  ghost predicate StatsOf(byKey: Index, refs: seq<ObjRef>, s: Stats) {
    && s.warnings == SumBy(refs, Field(byKey, Warnings()))
    && s.normals == SumBy(refs, Field(byKey, Normals()))
    && (s.warned <==> SomeWarns(byKey, refs))
    && (s.active <==> SomeWarnsNow(byKey, refs))
  }

  lemma StatsConcat(byKey: Index, xs: seq<ObjRef>, a: Stats, ys: seq<ObjRef>, b: Stats)
    requires StatsOf(byKey, xs, a) && StatsOf(byKey, ys, b)
    ensures StatsOf(byKey, xs + ys,
        Stats(a.warnings + b.warnings, a.normals + b.normals, a.warned || b.warned, a.active || b.active))
  {
    SumByConcat(xs, ys, Field(byKey, Warnings()));
    SumByConcat(xs, ys, Field(byKey, Normals()));
    assert forall r :: r in xs + ys <==> r in xs || r in ys;
  }

  lemma StatsOne(byKey: Index, r: ObjRef)
    requires r in byKey
    ensures StatsOf(byKey, [r], Stats(byKey[r].warnings, byKey[r].normals, Warns(byKey, r), WarnsNow(byKey, r)))
  {
    SumByAppend([], Field(byKey, Warnings()), r);
    SumByAppend([], Field(byKey, Normals()), r);
    assert [] + [r] == [r];
  }

  method Walk(byKey: Index, t: Node) returns (s: Stats)
    requires forall r :: r in Refs(t) ==> r in byKey
    ensures StatsOf(byKey, Refs(t), s)
    decreases t
  {
    assert Refs(t)[0] == t.ref;
    var o := byKey[t.ref];
    StatsOne(byKey, t.ref);
    var rest := Stats(0, 0, false, false);
    for i := 0 to |t.children|
      invariant StatsOf(byKey, AllRefs(t.children[..i]), rest)
    {
      PrefixStep(t.children, i);
      AllRefsMember(t.children, i);
      var c := Walk(byKey, t.children[i]);
      StatsConcat(byKey, AllRefs(t.children[..i]), rest, Refs(t.children[i]), c);
      rest := Stats(rest.warnings + c.warnings, rest.normals + c.normals, rest.warned || c.warned, rest.active
          || c.active);
    }
    assert t.children[..|t.children|] == t.children;
    s := Stats(o.warnings + rest.warnings, o.normals + rest.normals, o.hasWarning
        || rest.warned, (o.hasWarning && !o.idle) || rest.active);
    StatsConcat(byKey, [t.ref], Stats(o.warnings, o.normals, Warns(byKey, t.ref), WarnsNow(byKey, t.ref)),
        AllRefs(t.children), rest);
  }

  lemma {:induction false} AllRefsMember(ts: seq<Node>, i: nat)
    requires i < |ts|
    ensures forall r :: r in Refs(ts[i]) ==> r in AllRefs(ts)
  {
    if i < |ts| - 1 {
      AllRefsMember(ts[..|ts| - 1], i);
    }
  }

  // ---- Cascades ------------------------------------------------------------

  /** The childless objects of a tree, and of several. */
  function Leaves(t: Node): seq<ObjRef>
    decreases t
  {
    if t.children == [] then [t.ref] else AllLeaves(t.children)
  }

  function AllLeaves(ts: seq<Node>): seq<ObjRef>
    decreases ts
  {
    if ts == [] then [] else AllLeaves(ts[..|ts| - 1]) + Leaves(ts[|ts| - 1])
  }

  ghost predicate AllWarn(byKey: Index, refs: seq<ObjRef>) {
    forall r :: r in refs ==> Warns(byKey, r)
  }

  method CheckLeaves(byKey: Index, t: Node) returns (ok: bool)
    ensures ok <==> AllWarn(byKey, Leaves(t))
    decreases t
  {
    if |t.children| == 0 {
      return Warns(byKey, t.ref);
    }
    ok := true;
    for i := 0 to |t.children|
      invariant ok <==> AllWarn(byKey, AllLeaves(t.children[..i]))
    {
      PrefixStep(t.children, i);
      var c := CheckLeaves(byKey, t.children[i]);
      assert forall r :: r in AllLeaves(t.children[..i + 1]) <==>
          r in AllLeaves(t.children[..i]) || r in Leaves(t.children[i]);
      ok := ok && c;
    }
    assert t.children[..|t.children|] == t.children;
  }

  /** A family's totals are over its tree; it cascades exactly when its root and every leaf warn. */
  ghost predicate FamilyOk(byKey: Index, f: Family) {
    var refs := Refs(f.root);
    && f.warnings == SumBy(refs, Field(byKey, Warnings())) && f.normals == SumBy(refs, Field(byKey, Normals()))
    && (f.hasWarning <==> SomeWarns(byKey, refs))
    && (f.idle <==> SomeWarns(byKey, refs) && !SomeWarnsNow(byKey, refs))
    && (f.cascade <==> Warns(byKey, f.root.ref) && AllWarn(byKey, Leaves(f.root)))
  }

  method MakeFamily(byKey: Index, t: Node) returns (f: Family)
    requires forall r :: r in Refs(t) ==> r in byKey
    ensures FamilyOk(byKey, f) && f.root == t
  {
    var s := Walk(byKey, t);
    var cascade := false;
    if Warns(byKey, t.ref) {
      cascade := CheckLeaves(byKey, t);
    }
    f := Family(t, s.warnings, s.normals, s.warned, s.warned && !s.active, cascade);
  }

  // ---- The page ------------------------------------------------------------

  ghost function IndexOf(objects: seq<ObjectEvents>): Index {
    if objects == [] then map[]
    else IndexOf(objects[..|objects| - 1])[objects[|objects| - 1].ref := objects[|objects| - 1]]
  }

  lemma KeysLast(objects: seq<ObjectEvents>)
    requires objects != [] && Distinct(Keys(objects))
    ensures var front := Keys(objects[..|objects| - 1]);
            Keys(objects) == front + [objects[|objects| - 1].ref] && Distinct(front)
                && objects[|objects| - 1].ref !in front
  {
    var keys, front := Keys(objects), Keys(objects[..|objects| - 1]);
    assert forall i :: 0 <= i < |front| ==> front[i] == keys[i];
    assert keys[|objects| - 1] == objects[|objects| - 1].ref;
  }

  lemma {:induction false} IndexOfFinds(objects: seq<ObjectEvents>)
    requires Distinct(Keys(objects))
    ensures forall r :: r in IndexOf(objects) <==> r in Keys(objects)
    ensures forall o :: o in objects ==> o.ref in Keys(objects) && IndexOf(objects)[o.ref] == o
  {
    if objects != [] {
      var front, last := objects[..|objects| - 1], objects[|objects| - 1];
      KeysLast(objects);
      IndexOfFinds(front);
      assert forall o :: o in objects <==> o in front || o == last;
    }
  }

  method IndexObjects(objects: seq<ObjectEvents>) returns (byKey: Index)
    ensures byKey == IndexOf(objects)
  {
    byKey := map[];
    for i := 0 to |objects|
      invariant byKey == IndexOf(objects[..i])
    {
      PrefixStep(objects, i);
      byKey := byKey[objects[i].ref := objects[i]];
    }
    assert objects[..|objects|] == objects;
  }

  /** The roots: no parent, and a child. */
  method FindRoots(keys: seq<ObjRef>, up: Parents, listed: seq<ObjRef>, childrenOf: map<ObjRef, seq<ObjRef>>)
    returns (roots: seq<ObjRef>)
    requires Distinct(keys) && ChildrenOk(listed, up, childrenOf) && forall c :: c in listed <==> c in up
    ensures Distinct(roots) && forall r :: r in roots <==> IsRoot(keys, up, r)
  {
    var found: seq<ObjRef> := [];
    for i := 0 to |keys|
      invariant Distinct(found) && forall r :: r in found <==> r in keys[..i] && IsRoot(keys, up, r)
    {
      var k := keys[i];
      PrefixStep(keys, i);
      assert k !in keys[..i] && k in keys;
      HasChildExactly(up, listed, childrenOf, k);
      if k !in up && k in childrenOf {
        found := found + [k];
      }
    }
    assert keys[..|keys|] == keys;
    RefLessIsTotal();
    roots := Sort(found, RefLess);
    PermutesMembers(roots, found);
    PermutesDistinct(roots, found);
  }

  lemma HasChildExactly(up: Parents, listed: seq<ObjRef>, childrenOf: map<ObjRef, seq<ObjRef>>, k: ObjRef)
    requires ChildrenOk(listed, up, childrenOf) && forall c :: c in listed <==> c in up
    ensures k in childrenOf <==> exists c :: c in up && up[c] == k
  {
    var kids := Kids(childrenOf, k);
    assert KidsOk(listed, up, k, kids);
    if k in childrenOf {
      assert kids[0] in kids;
    }
  }

  function RefSet(refs: seq<ObjRef>): set<ObjRef> {
    set r | r in refs
  }

  method MarkClaimed(t: Node, claimed: set<ObjRef>) returns (r: set<ObjRef>)
    ensures r == claimed + RefSet(Refs(t))
    decreases t
  {
    r := claimed + {t.ref};
    for i := 0 to |t.children|
      invariant r == claimed + {t.ref} + RefSet(AllRefs(t.children[..i]))
    {
      PrefixStep(t.children, i);
      r := MarkClaimed(t.children[i], r);
    }
    assert t.children[..|t.children|] == t.children;
  }

  function RootNode(): Family -> Node {
    (f: Family) => f.root
  }

  function FamilyWarnings(): Family -> int {
    (f: Family) => f.warnings
  }

  function FamilyNormals(): Family -> int {
    (f: Family) => f.normals
  }

  /** A whole tree, from a root without a parent. */
  ghost predicate TreeOk(keys: seq<ObjRef>, up: Parents, t: Node)
    requires IsForest(keys, up)
  {
    IsRoot(keys, up, t.ref) && t == Tree(keys, up, t.ref, 0)
  }

  ghost predicate Good(keys: seq<ObjRef>, up: Parents, byKey: Index, f: Family)
    requires IsForest(keys, up)
  {
    FamilyOk(byKey, f) && TreeOk(keys, up, f.root)
  }

  ghost predicate AllGood(keys: seq<ObjRef>, up: Parents, byKey: Index, families: seq<Family>)
    requires IsForest(keys, up)
  {
    forall f {:trigger Good(keys, up, byKey, f)} :: f in families ==> Good(keys, up, byKey, f)
  }

  /** The families of the first roots, in the roots' order, and what they claim. */
  ghost predicate Grown(keys: seq<ObjRef>, up: Parents, byKey: Index, roots: seq<ObjRef>, room: nat,
                        families: seq<Family>, claimed: set<ObjRef>)
    requires IsForest(keys, up) && Below(keys, roots, room)
  {
    && Map(RootNode(), families) == Trees(keys, up, roots, 0, room)
    && AllGood(keys, up, byKey, families)
    && claimed == RefSet(AllRefs(Trees(keys, up, roots, 0, room)))
  }

  lemma TreeMembers(keys: seq<ObjRef>, up: Parents, k: ObjRef, depth: nat, x: ObjRef)
    requires IsForest(keys, up) && k in keys
    ensures x in Refs(Tree(keys, up, k, depth)) <==> Ancestor(up, k, x)
    ensures x in Refs(Tree(keys, up, k, depth)) ==> x in keys
  {
    TreeCount(keys, up, k, depth, x);
    assert x in Refs(Tree(keys, up, k, depth)) <==> x in multiset(Refs(Tree(keys, up, k, depth)));
  }

  /** The family of one root, and its objects claimed. */
  method GrowFamily(keys: seq<ObjRef>, up: Parents, byKey: Index, listed: seq<ObjRef>, childrenOf: map<ObjRef,
                    seq<ObjRef>>,
                    root: ObjRef, before: set<ObjRef>)
    returns (f: Family, claimed: set<ObjRef>)
    requires IsForest(keys, up) && ChildrenOk(listed, up, childrenOf) && root in keys
    requires (forall c :: c in listed <==> c in up) && (forall k :: k in keys ==> k in byKey)
    ensures FamilyOk(byKey, f) && f.root == Tree(keys, up, root, 0) && claimed == before + RefSet(Refs(f.root))
  {
    var t := Wire(keys, up, listed, childrenOf, root, 0);
    forall r | r in Refs(t) ensures r in byKey {
      TreeMembers(keys, up, root, 0, r);
    }
    f := MakeFamily(byKey, t);
    claimed := MarkClaimed(t, before);
  }

  method GrowFamilies(keys: seq<ObjRef>, up: Parents, byKey: Index, listed: seq<ObjRef>, childrenOf: map<ObjRef,
                      seq<ObjRef>>,
                      roots: seq<ObjRef>, ghost room: nat)
    returns (families: seq<Family>, claimed: set<ObjRef>)
    requires IsForest(keys, up) && Below(keys, roots, room) && ChildrenOk(listed, up, childrenOf)
    requires (forall c :: c in listed <==> c in up) && (forall k :: k in keys ==> k in byKey)
    requires forall r :: r in roots ==> IsRoot(keys, up, r)
    ensures Grown(keys, up, byKey, roots, room, families, claimed)
  {
    families, claimed := [], {};
    for i := 0 to |roots|
      invariant Below(keys, roots[..i], room) && Grown(keys, up, byKey, roots[..i], room, families, claimed)
    {
      assert roots[i] in roots;
      var f, claimed' := GrowFamily(keys, up, byKey, listed, childrenOf, roots[i], claimed);
      GrownStep(keys, up, byKey, roots, room, families, claimed, i, f);
      families, claimed := families + [f], claimed';
    }
    assert roots[..|roots|] == roots;
  }

  lemma TreesStep(keys: seq<ObjRef>, up: Parents, roots: seq<ObjRef>, room: nat, i: nat)
    requires IsForest(keys, up) && Below(keys, roots, room) && i < |roots| && Below(keys, roots[..i], room)
        && roots[i] in keys
    ensures Below(keys, roots[..i + 1], room)
    ensures var ts, t := Trees(keys, up, roots[..i], 0, room), Tree(keys, up, roots[i], 0);
            Trees(keys, up, roots[..i + 1], 0, room) == ts + [t] && AllRefs(ts + [t]) == AllRefs(ts) + Refs(t)
  {
    PrefixStep(roots, i);
    var ts, t := Trees(keys, up, roots[..i], 0, room), Tree(keys, up, roots[i], 0);
    assert (ts + [t])[..|ts|] == ts;
  }

  lemma GrownStep(keys: seq<ObjRef>, up: Parents, byKey: Index, roots: seq<ObjRef>, room: nat, families: seq<Family>,
                  claimed: set<ObjRef>, i: nat, f: Family)
    requires IsForest(keys, up) && Below(keys, roots, room) && i < |roots| && Below(keys, roots[..i], room)
        && IsRoot(keys, up, roots[i])
    requires Grown(keys, up, byKey, roots[..i], room, families, claimed)
    requires FamilyOk(byKey, f) && f.root == Tree(keys, up, roots[i], 0)
    ensures Below(keys, roots[..i + 1], room)
    ensures Grown(keys, up, byKey, roots[..i + 1], room, families + [f], claimed + RefSet(Refs(f.root)))
  {
    TreesStep(keys, up, roots, room, i);
    RootsStep(families, f);
    assert Good(keys, up, byKey, f);
    RefSetConcat(AllRefs(Trees(keys, up, roots[..i], 0, room)), Refs(f.root));
  }

  lemma RootsStep(families: seq<Family>, f: Family)
    ensures Map(RootNode(), families + [f]) == Map(RootNode(), families) + [f.root]
  {
  }

  lemma RefSetConcat(xs: seq<ObjRef>, ys: seq<ObjRef>)
    ensures RefSet(xs + ys) == RefSet(xs) + RefSet(ys)
  {
  }

  method FindOrphans(objects: seq<ObjectEvents>, claimed: set<ObjRef>) returns (orphans: seq<ObjectEvents>)
    requires Distinct(Keys(objects))
    ensures Distinct(Keys(orphans)) && forall x :: x in Keys(orphans) <==> x in Keys(objects) && x !in claimed
    ensures forall o :: o in orphans ==> o in objects
  {
    orphans := [];
    for i := 0 to |objects|
      invariant Distinct(Keys(orphans)) && forall x :: x in Keys(orphans) <==> x in Keys(objects)[..i] && x !in claimed
      invariant forall o :: o in orphans ==> o in objects
    {
      var o := objects[i];
      PrefixStep(Keys(objects), i);
      assert Keys(objects)[i] == o.ref && o.ref !in Keys(objects)[..i];
      if o.ref !in claimed {
        assert Keys(orphans + [o]) == Keys(orphans) + [o.ref];
        orphans := orphans + [o];
      }
    }
    assert Keys(objects)[..|objects|] == Keys(objects);
  }
}
