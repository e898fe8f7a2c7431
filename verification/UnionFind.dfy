/** The equivalence closure of a set of links, and the union-find that computes it. */
module UnionFind {

  // ---- Equivalence closure -------------------------------------------------

  ghost predicate Adjacent<T>(links: set<(T, T)>, x: T, y: T) {
    (x, y) in links || (y, x) in links
  }

  ghost predicate IsPath<T>(links: set<(T, T)>, path: seq<T>) {
    |path| > 0 && forall i :: 0 < i < |path| ==> Adjacent(links, path[i - 1], path[i])
  }

  ghost predicate PathBetween<T>(links: set<(T, T)>, path: seq<T>, x: T, y: T) {
    IsPath(links, path) && path[0] == x && path[|path| - 1] == y
  }

  /** The least equivalence relation that contains `links`. */
  ghost predicate Connected<T(!new)>(links: set<(T, T)>, x: T, y: T) {
    exists path :: PathBetween(links, path, x, y)
  }

  lemma ConnectedRefl<T(!new)>(links: set<(T, T)>, x: T)
    ensures Connected(links, x, x)
  {
    assert PathBetween(links, [x], x, x);
  }

  lemma ConnectedLink<T(!new)>(links: set<(T, T)>, x: T, y: T)
    requires Adjacent(links, x, y)
    ensures Connected(links, x, y)
  {
    assert PathBetween(links, [x, y], x, y);
  }

  lemma ConnectedSym<T(!new)>(links: set<(T, T)>, x: T, y: T)
    requires Connected(links, x, y)
    ensures Connected(links, y, x)
  {
    var path :| PathBetween(links, path, x, y);
    var back := seq(|path|, i requires 0 <= i < |path| => path[|path| - 1 - i]);
    forall i | 0 < i < |back| ensures Adjacent(links, back[i - 1], back[i]) {
      assert Adjacent(links, path[|path| - i - 1], path[|path| - i]);
    }
    assert PathBetween(links, back, y, x);
  }

  lemma ConnectedTrans<T(!new)>(links: set<(T, T)>, x: T, y: T, z: T)
    requires Connected(links, x, y) && Connected(links, y, z)
    ensures Connected(links, x, z)
  {
    var p :| PathBetween(links, p, x, y);
    var q :| PathBetween(links, q, y, z);
    var r := p + q[1..];
    forall i | 0 < i < |r| ensures Adjacent(links, r[i - 1], r[i]) {
      if i >= |p| {
        assert r[i] == q[i - |p| + 1] && r[i - 1] == q[i - |p|];
      }
    }
    assert PathBetween(links, r, x, z);
  }

  lemma ConnectedMono<T(!new)>(links: set<(T, T)>, more: set<(T, T)>, x: T, y: T)
    requires Connected(links, x, y) && links <= more
    ensures Connected(more, x, y)
  {
    var path :| PathBetween(links, path, x, y);
    assert PathBetween(more, path, x, y);
  }

  /** A map that takes linked points to connected points takes connected points to connected points. */
  lemma {:induction false} ConnectedMap<T(!new), U(!new)>(links: set<(T, T)>, others: set<(U, U)>, f: T -> U, x: T,
                                          y: T)
    requires forall l :: l in links ==> Connected(others, f(l.0), f(l.1))
    requires Connected(links, x, y)
    ensures Connected(others, f(x), f(y))
  {
    var path :| PathBetween(links, path, x, y);
    ConnectedRefl(others, f(x));
    var n := 1;
    while n < |path|
      invariant 1 <= n <= |path|
      invariant Connected(others, f(x), f(path[n - 1]))
    {
      var a, b := path[n - 1], path[n];
      assert Adjacent(links, a, b);
      if (a, b) in links {
        assert Connected(others, f((a, b).0), f((a, b).1));
      } else {
        assert Connected(others, f((b, a).0), f((b, a).1));
        ConnectedSym(others, f(b), f(a));
      }
      ConnectedTrans(others, f(x), f(a), f(b));
      n := n + 1;
    }
  }

  /** Adding only links between already connected points connects nothing new. */
  lemma ConnectedAbsorb<T(!new)>(links: set<(T, T)>, more: set<(T, T)>, x: T, y: T)
    requires forall l :: l in more ==> Connected(links, l.0, l.1)
    requires Connected(more, x, y)
    ensures Connected(links, x, y)
  {
    ConnectedMap(more, links, z => z, x, y);
  }

  /** A property that every link carries over is carried along a whole component. */
  lemma {:induction false} ConnectedInvariant<T(!new), V>(links: set<(T, T)>, f: T -> V, x: T, y: T)
    requires forall l :: l in links ==> f(l.0) == f(l.1)
    requires Connected(links, x, y)
    ensures f(x) == f(y)
  {
    var path :| PathBetween(links, path, x, y);
    var n := 1;
    while n < |path|
      invariant 1 <= n <= |path|
      invariant f(path[n - 1]) == f(x)
    {
      assert Adjacent(links, path[n - 1], path[n]);
      assert f((path[n - 1], path[n]).0) == f(path[n - 1]);
      n := n + 1;
    }
  }

  /** A point of a component with at least two points has a link to another point. */
  lemma ConnectedHasLink<T(!new)>(links: set<(T, T)>, x: T, y: T) returns (z: T)
    requires Connected(links, x, y) && x != y
    ensures z != x && Adjacent(links, x, z)
  {
    var path :| PathBetween(links, path, x, y);
    var n := 1;
    while path[n] == x
      invariant 1 <= n < |path| && path[n - 1] == x
      decreases |path| - n
    {
      n := n + 1;
    }
    z := path[n];
    assert Adjacent(links, path[n - 1], path[n]);
  }

  // ---- Union-find ----------------------------------------------------------

  /** One point of a forest: `root[x]` is where the parent pointers lead from x, `depth` bounds the way. */
  ghost predicate NodeOk(parent: seq<nat>, root: seq<nat>, depth: seq<nat>, x: nat) {
    && |root| == |depth| == |parent| && x < |parent|
    && parent[x] < |parent|
    && root[x] < |parent|
    && root[parent[x]] == root[x]
    && parent[root[x]] == root[x]
    && root[root[x]] == root[x]
    && (parent[x] == x ==> root[x] == x)
    && (parent[x] != x ==> depth[parent[x]] < depth[x])
  }

  ghost predicate Forest(parent: seq<nat>, root: seq<nat>, depth: seq<nat>) {
    && |root| == |depth| == |parent|
    && (forall x: nat {:trigger NodeOk(parent, root, depth, x)} :: x < |parent| ==> NodeOk(parent, root, depth, x))
  }

  /** Path halving keeps every representative. */
  lemma HalvingKeepsForest(parent: seq<nat>, root: seq<nat>, depth: seq<nat>, x: nat)
    requires Forest(parent, root, depth) && x < |parent|
    ensures parent[x] < |parent| && Forest(parent[x := parent[parent[x]]], root, depth)
    ensures parent[x] != x ==>
        parent[parent[x]] < |parent| && depth[parent[parent[x]]] < depth[x] && root[parent[parent[x]]] == root[x]
  {
    assert NodeOk(parent, root, depth, x);
    var up := parent[x];
    assert NodeOk(parent, root, depth, up);
    var p := parent[x := parent[up]];
    forall y: nat | y < |p| ensures NodeOk(p, root, depth, y) {
      assert NodeOk(parent, root, depth, y);
    }
  }

  ghost function UnitedRoot(root: seq<nat>, ra: nat, rb: nat): (r: seq<nat>)
    ensures |r| == |root|
    ensures forall x :: 0 <= x < |root| ==> r[x] == if root[x] == ra then rb else root[x]
  {
    seq(|root|, x requires 0 <= x < |root| => if root[x] == ra then rb else root[x])
  }

  /** The new bounds once ra is hung below rb; nothing changes when they are the same point. */
  ghost function Deepened(root: seq<nat>, depth: seq<nat>, ra: nat, rb: nat): (d: seq<nat>)
    requires |root| == |depth| && rb < |depth|
    ensures |d| == |depth|
    ensures forall x :: 0 <= x < |depth| ==>
              d[x] == if ra != rb && root[x] == ra then depth[x] + depth[rb] + 1 else depth[x]
  {
    seq(|depth|, x requires 0 <= x < |depth| => if ra != rb && root[x] == ra then depth[x] + depth[rb] + 1
        else depth[x])
  }

  lemma UnionKeepsForest(parent: seq<nat>, root: seq<nat>, depth: seq<nat>, ra: nat, rb: nat)
    requires Forest(parent, root, depth) && ra < |parent| && rb < |parent|
    requires root[ra] == ra && root[rb] == rb
    ensures Forest(parent[ra := rb], UnitedRoot(root, ra, rb), Deepened(root, depth, ra, rb))
  {
    assert NodeOk(parent, root, depth, ra) && NodeOk(parent, root, depth, rb);
    var p, r, d := parent[ra := rb], UnitedRoot(root, ra, rb), Deepened(root, depth, ra, rb);
    forall x: nat | x < |p| ensures NodeOk(p, r, d, x) {
      assert NodeOk(parent, root, depth, x);
    }
  }

  /** The representatives are those of the equivalence closure of `links`. */
  ghost predicate Represents(root: seq<nat>, links: set<(nat, nat)>) {
    && (forall l :: l in links ==> l.0 < |root| && l.1 < |root| && root[l.0] == root[l.1])
    && (forall x: nat :: x < |root| ==> Connected(links, x, root[x]))
  }

  lemma RepresentsDecides(root: seq<nat>, links: set<(nat, nat)>, x: nat, y: nat)
    requires Represents(root, links) && x < |root| && y < |root|
    ensures root[x] == root[y] <==> Connected(links, x, y)
  {
    if root[x] == root[y] {
      ConnectedSym(links, y, root[y]);
      ConnectedTrans(links, x, root[x], y);
    }
    if Connected(links, x, y) {
      ConnectedInvariant(links, z => if 0 <= z < |root| then root[z] else z, x, y);
    }
  }

  lemma UnionRepresents(root: seq<nat>, links: set<(nat, nat)>, a: nat, b: nat)
    requires Represents(root, links) && a < |root| && b < |root|
    ensures Represents(UnitedRoot(root, root[a], root[b]), links + {(a, b)})
  {
    var ra, rb, more := root[a], root[b], links + {(a, b)};
    var r := UnitedRoot(root, ra, rb);
    assert Connected(more, a, ra) && Connected(more, b, rb) && Connected(more, a, b) by {
      ConnectedMono(links, more, a, ra);
      ConnectedMono(links, more, b, rb);
      ConnectedLink(more, a, b);
    }
    forall x: nat | x < |r| ensures Connected(more, x, r[x]) {
      ConnectedMono(links, more, x, root[x]);
      if root[x] == ra {
        ConnectedSym(more, a, ra);
        ConnectedTrans(more, x, ra, a);
        ConnectedTrans(more, x, a, b);
        ConnectedTrans(more, x, b, rb);
      }
    }
  }

  /** The union-find of groupPatterns. `parent` is rewritten in place, by unions and by path halving;
      the ghost fields say what it means: every point's representative, a bound on the way to it,
      and the pairs united so far. */
  class DisjointSets {
    const parent: array<nat>
    ghost var root: seq<nat>
    ghost var depth: seq<nat>
    ghost var links: set<(nat, nat)>

    ghost predicate Valid()
      reads this, parent
    {
      Forest(parent[..], root, depth) && Represents(root, links)
    }

    constructor (n: nat)
      ensures Valid() && fresh(parent)
      ensures parent.Length == n && links == {}
    {
      parent := new nat[n](i => i);
      root, depth, links := seq(n, i => i), seq(n, i => 0), {};
      new;
      forall x: nat | x < n ensures Connected(links, x, root[x]) {
        ConnectedRefl(links, x);
      }
    }

    /** Finding changes parent pointers but no representative. */
    method Find(start: nat) returns (x: nat)
      requires Valid() && start < parent.Length
      modifies parent
      ensures Valid()
      ensures x == root[start] && x < parent.Length && root[x] == x
    {
      x := start;
      while parent[x] != x
        invariant x < parent.Length && Forest(parent[..], root, depth)
        invariant root[x] == root[start]
        decreases depth[x]
      {
        ghost var was := parent[..];
        assert was[x] == parent[x];
        HalvingKeepsForest(was, root, depth, x);
        assert NodeOk(was, root, depth, x);
        assert was[was[x]] == parent[parent[x]];
        parent[x] := parent[parent[x]];
        assert parent[..] == was[x := was[was[x]]];
        x := parent[x];
      }
      assert NodeOk(parent[..], root, depth, x);
      assert NodeOk(parent[..], root, depth, start);
    }

    /** After uniting a and b, the representatives are those of the closure with (a, b) added. */
    method Union(a: nat, b: nat)
      requires Valid() && a < parent.Length && b < parent.Length
      modifies this, parent
      ensures Valid()
      ensures links == old(links) + {(a, b)}
    {
      var ra := Find(a);
      var rb := Find(b);
      ghost var was := parent[..];
      UnionRepresents(root, links, a, b);
      UnionKeepsForest(was, root, depth, ra, rb);
      parent[ra] := rb;
      assert parent[..] == was[ra := rb];
      depth := Deepened(root, depth, ra, rb);
      root := UnitedRoot(root, ra, rb);
      links := links + {(a, b)};
    }
  }
}
