/** Parents found from names (main.go): every parent's name is shorter, so the objects form a forest, and each
    is in exactly one tree. */
module Forest {
  import opened Groups
  import opened Sequences
  import opened Strings

  /** The parent of each object that has one. */
  type Parents = map<ObjRef, ObjRef>

  ghost predicate IsForest(keys: seq<ObjRef>, up: Parents) {
    && Distinct(keys)
    && forall k {:trigger up[k]} :: k in up ==> k in keys && up[k] in keys && |up[k].name| < |k.name|
  }

  /** By kind, then by name. */
  predicate RefLess(a: ObjRef, b: ObjRef) {
    if a.kind != b.kind then StringLess(a.kind, b.kind) else StringLess(a.name, b.name)
  }

  function IsChildOf(up: Parents, k: ObjRef): ObjRef -> bool {
    c => c in up && up[c] == k
  }

  function Children(keys: seq<ObjRef>, up: Parents, k: ObjRef): seq<ObjRef> {
    StableSort(Filter(keys, IsChildOf(up, k)), RefLess)
  }

  lemma {:induction false} FilterDistinct<T(!new)>(xs: seq<T>, keep: T -> bool)
    requires Distinct(xs)
    ensures Distinct(Filter(xs, keep))
  {
    if xs != [] {
      FilterDistinct(xs[..|xs| - 1], keep);
      FilterMembers(xs[..|xs| - 1], keep, xs[|xs| - 1]);
    }
  }

  lemma ChildrenMembers(keys: seq<ObjRef>, up: Parents, k: ObjRef)
    requires IsForest(keys, up)
    ensures Distinct(Children(keys, up, k))
    ensures forall c :: c in Children(keys, up, k) <==> c in up && up[c] == k
  {
    var found := Filter(keys, IsChildOf(up, k));
    StableSortPermutes(found, RefLess);
    FilterDistinct(keys, IsChildOf(up, k));
    PermutesDistinct(Children(keys, up, k), found);
    PermutesMembers(Children(keys, up, k), found);
    forall c ensures c in found <==> c in up && up[c] == k {
      FilterMembers(keys, IsChildOf(up, k), c);
    }
  }

  // ---- Trees ---------------------------------------------------------------

  datatype Node = Node(ref: ObjRef, depth: nat, children: seq<Node>)

  function Longest(keys: seq<ObjRef>): (n: nat)
    ensures forall k :: k in keys ==> |k.name| <= n
  {
    if keys == [] then 0
    else
      var n, last := Longest(keys[..|keys| - 1]), |keys[|keys| - 1].name|;
      assert keys == keys[..|keys| - 1] + [keys[|keys| - 1]];
      if last > n then last else n
  }

  /** How far names can still grow below k: what makes the recursion over children end. */
  function Room(keys: seq<ObjRef>, k: ObjRef): nat
    requires k in keys
  {
    Longest(keys) - |k.name|
  }

  ghost predicate Below(keys: seq<ObjRef>, cs: seq<ObjRef>, room: nat) {
    forall c :: c in cs ==> c in keys && Room(keys, c) < room
  }

  lemma ChildrenBelow(keys: seq<ObjRef>, up: Parents, k: ObjRef)
    requires IsForest(keys, up) && k in keys
    ensures Below(keys, Children(keys, up, k), Room(keys, k))
  {
    ChildrenMembers(keys, up, k);
    assert forall c :: c in up ==> c in keys && |up[c].name| < |c.name|;
  }

  /** The tree under k, its nodes' depths counted from depth. */
  ghost function Tree(keys: seq<ObjRef>, up: Parents, k: ObjRef, depth: nat): Node
    requires IsForest(keys, up) && k in keys
    decreases Room(keys, k), 1, 0
  {
    ChildrenBelow(keys, up, k);
    Node(k, depth, Trees(keys, up, Children(keys, up, k), depth + 1, Room(keys, k)))
  }

  ghost function Trees(keys: seq<ObjRef>, up: Parents, cs: seq<ObjRef>, depth: nat, room: nat): (ts: seq<Node>)
    requires IsForest(keys, up) && Below(keys, cs, room)
    ensures |ts| == |cs|
    decreases room, 0, |cs|
  {
    if cs == [] then []
    else
      assert cs[|cs| - 1] in cs && forall c :: c in cs[..|cs| - 1] ==> c in cs;
      Trees(keys, up, cs[..|cs| - 1], depth, room) + [Tree(keys, up, cs[|cs| - 1], depth)]
  }

  /** The objects of a tree, and of several. */
  function Refs(t: Node): seq<ObjRef>
    decreases t
  {
    [t.ref] + AllRefs(t.children)
  }

  function AllRefs(ts: seq<Node>): seq<ObjRef>
    decreases ts
  {
    if ts == [] then [] else AllRefs(ts[..|ts| - 1]) + Refs(ts[|ts| - 1])
  }

  // ---- Ancestors -----------------------------------------------------------

  predicate Ancestor(up: Parents, k: ObjRef, x: ObjRef)
    decreases |x.name|
  {
    x == k || (x in up && |up[x].name| < |x.name| && Ancestor(up, k, up[x]))
  }

  lemma {:induction false} AncestorShorter(up: Parents, k: ObjRef, x: ObjRef)
    requires Ancestor(up, k, x)
    ensures k == x || |k.name| < |x.name|
    decreases |x.name|
  {
    if x != k {
      AncestorShorter(up, k, up[x]);
    }
  }

  /** Of two ancestors of an object one is the other's. */
  lemma {:induction false} AncestorsLineUp(up: Parents, a: ObjRef, b: ObjRef, x: ObjRef)
    requires Ancestor(up, a, x) && Ancestor(up, b, x)
    ensures Ancestor(up, a, b) || Ancestor(up, b, a)
    decreases |x.name|
  {
    if x != a && x != b {
      AncestorsLineUp(up, a, b, up[x]);
    }
  }

  /** An ancestor reaches down to an object through exactly one child. */
  lemma {:induction false} TowardDescendant(up: Parents, k: ObjRef, x: ObjRef) returns (c: ObjRef)
    requires Ancestor(up, k, x) && x != k
    ensures c in up && up[c] == k && Ancestor(up, c, x)
    decreases |x.name|
  {
    if up[x] == k {
      c := x;
    } else {
      c := TowardDescendant(up, k, up[x]);
    }
  }

  lemma OneChildReaches(up: Parents, k: ObjRef, c: ObjRef, d: ObjRef, x: ObjRef)
    requires c in up && d in up && up[c] == k && up[d] == k && |k.name| < |c.name| && |k.name| < |d.name|
    requires Ancestor(up, c, x) && Ancestor(up, d, x)
    ensures c == d
  {
    AncestorsLineUp(up, c, d, x);
    if c != d {
      if Ancestor(up, c, d) {
        AncestorShorter(up, c, k);
      } else {
        AncestorShorter(up, d, k);
      }
    }
  }

  lemma {:induction false} ChildStaysBelow(up: Parents, k: ObjRef, c: ObjRef, x: ObjRef)
    requires c in up && up[c] == k && |k.name| < |c.name| && Ancestor(up, c, x)
    ensures Ancestor(up, k, x)
    decreases |x.name|
  {
    if x != c {
      ChildStaysBelow(up, k, c, up[x]);
    }
  }

  // ---- Each object once ----------------------------------------------------

  /** At most one of cs is an ancestor of x. */
  ghost predicate OneReaches(up: Parents, cs: seq<ObjRef>, x: ObjRef) {
    forall c, d :: c in cs && d in cs && Ancestor(up, c, x) && Ancestor(up, d, x) ==> c == d
  }

  ghost predicate SomeReaches(up: Parents, cs: seq<ObjRef>, x: ObjRef) {
    exists c :: c in cs && Ancestor(up, c, x)
  }

  lemma {:induction false} TreesCount(keys: seq<ObjRef>, up: Parents, cs: seq<ObjRef>, depth: nat, room: nat, x: ObjRef)
    requires IsForest(keys, up) && Below(keys, cs, room) && Distinct(cs) && OneReaches(up, cs, x)
    ensures multiset(AllRefs(Trees(keys, up, cs, depth, room)))[x] == if SomeReaches(up, cs, x) then 1 else 0
    decreases room, 0, |cs|
  {
    if cs != [] {
      var front, last := cs[..|cs| - 1], cs[|cs| - 1];
      assert forall c :: c in cs <==> c in front || c == last;
      TreesCount(keys, up, front, depth, room, x);
      TreeCount(keys, up, last, depth, x);
      var ts := Trees(keys, up, cs, depth, room);
      assert ts[..|ts| - 1] == Trees(keys, up, front, depth, room);
      assert last !in front;
    }
  }

  /** A tree holds every descendant of its root once, and nothing else. */
  lemma {:induction false} TreeCount(keys: seq<ObjRef>, up: Parents, k: ObjRef, depth: nat, x: ObjRef)
    requires IsForest(keys, up) && k in keys
    ensures multiset(Refs(Tree(keys, up, k, depth)))[x] == if Ancestor(up, k, x) then 1 else 0
    decreases Room(keys, k), 1, 0
  {
    var cs := Children(keys, up, k);
    ChildrenMembers(keys, up, k);
    ChildrenBelow(keys, up, k);
    forall c, d | c in cs && d in cs && Ancestor(up, c, x) && Ancestor(up, d, x) ensures c == d {
      OneChildReaches(up, k, c, d, x);
    }
    TreesCount(keys, up, cs, depth + 1, Room(keys, k), x);
    ChildReachesExactly(keys, up, k, cs, x);
  }

  lemma ChildReachesExactly(keys: seq<ObjRef>, up: Parents, k: ObjRef, cs: seq<ObjRef>, x: ObjRef)
    requires IsForest(keys, up) && forall c :: c in cs <==> c in up && up[c] == k
    ensures SomeReaches(up, cs, x) <==> Ancestor(up, k, x) && x != k
  {
    if Ancestor(up, k, x) && x != k {
      var c := TowardDescendant(up, k, x);
    }
    if c :| c in cs && Ancestor(up, c, x) {
      ChildStaysBelow(up, k, c, x);
      AncestorShorter(up, c, x);
    }
  }

  // ---- The partition -------------------------------------------------------

  /** The root of a family: children, and no parent. */
  ghost predicate IsRoot(keys: seq<ObjRef>, up: Parents, r: ObjRef) {
    r in keys && r !in up && exists c :: c in up && up[c] == r
  }

  lemma {:induction false} TopOf(up: Parents, x: ObjRef) returns (r: ObjRef)
    requires forall k :: k in up ==> |up[k].name| < |k.name|
    ensures Ancestor(up, r, x) && r !in up
    decreases |x.name|
  {
    if x in up {
      r := TopOf(up, up[x]);
    } else {
      r := x;
    }
  }

  lemma RootsReachOnce(up: Parents, roots: seq<ObjRef>, x: ObjRef)
    requires forall r :: r in roots ==> r !in up
    ensures OneReaches(up, roots, x)
  {
    forall c, d | c in roots && d in roots && Ancestor(up, c, x) && Ancestor(up, d, x) ensures c == d {
      AncestorsLineUp(up, c, d, x);
    }
  }

  /** An object belongs to some family exactly when it has a parent or a child. */
  lemma InFamilyExactly(keys: seq<ObjRef>, up: Parents, roots: seq<ObjRef>, x: ObjRef)
    requires IsForest(keys, up) && x in keys && forall r :: r in roots <==> IsRoot(keys, up, r)
    ensures SomeReaches(up, roots, x) <==> x in up || exists c :: c in up && up[c] == x
  {
    var r := TopOf(up, x);
    if x in up {
      var c := TowardDescendant(up, r, x);
      assert up[c] in keys;
      assert IsRoot(keys, up, r);
    } else if c :| c in up && up[c] == x {
      assert IsRoot(keys, up, x);
    } else {
      forall s | s in roots ensures !Ancestor(up, s, x) {
        assert IsRoot(keys, up, s);
      }
    }
  }

  /** The families and what no family claims: every object exactly once. */
  lemma EachObjectOnce(keys: seq<ObjRef>, up: Parents, roots: seq<ObjRef>, room: nat, orphans: seq<ObjRef>)
    requires IsForest(keys, up) && Distinct(roots) && Below(keys, roots, room)
    requires forall r :: r in roots <==> IsRoot(keys, up, r)
    requires Distinct(orphans) && forall x :: x in orphans <==> x in keys && !SomeReaches(up, roots, x)
    ensures Permutes(AllRefs(Trees(keys, up, roots, 0, room)) + orphans, keys)
  {
    var all := AllRefs(Trees(keys, up, roots, 0, room));
    forall x ensures multiset(all + orphans)[x] == multiset(keys)[x] {
      RootsReachOnce(up, roots, x);
      TreesCount(keys, up, roots, 0, room, x);
      DistinctMultiplicity(orphans, x);
      DistinctMultiplicity(keys, x);
      ReachedIsListed(keys, up, roots, x);
    }
  }

  lemma ReachedIsListed(keys: seq<ObjRef>, up: Parents, roots: seq<ObjRef>, x: ObjRef)
    requires IsForest(keys, up) && forall r :: r in roots ==> r in keys
    ensures SomeReaches(up, roots, x) ==> x in keys
  {
    if r :| r in roots && Ancestor(up, r, x) {
      assert x == r || x in up;
    }
  }
}
