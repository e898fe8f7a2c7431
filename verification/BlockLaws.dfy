/** The orders Go's maps can give the rows (buildProblems in problems.go): each namespace's rows come together, and
    the cluster's last. The order of the maps matters exactly when the order of the namespaces does. */
module BlockLaws {
  import opened Clock
  import opened Sequences
  import opened UnionFind
  import opened Problems
  import opened Patterns
  import opened OrderLaws
  import opened PageLaws

  // ---- Blocked listings ----------------------------------------------------

  /** Rows i and k are of one namespace, and j is between them. */
  ghost predicate Spans(ps: seq<Problem>, i: nat, j: nat, k: nat) {
    i < j < k && IsRow(ps, k) && Home(ps[i]) == Home(ps[k])
  }

  /** The namespaces' rows come first, and those of one namespace together. */
  ghost predicate Blocked(ps: seq<Problem>) {
    && (forall i: nat, j: nat {:trigger IsRow(ps, i), IsRow(ps, j)} :: i < j && IsRow(ps, j) ==> IsRow(ps, i))
    && (forall i: nat, j: nat, k: nat {:trigger Spans(ps, i, j, k)} :: Spans(ps, i, j, k) ==>
        Home(ps[j]) == Home(ps[k]))
  }

  /** An order of the namespaces. */
  ghost predicate IsOrder(ps: seq<Problem>, order: seq<string>) {
    Distinct(order) && forall i: nat {:trigger IsRow(ps, i)} :: IsRow(ps, i) ==> Home(ps[i]) in order
  }

  ghost function Place(order: seq<string>, h: string): (k: nat)
    ensures h in order ==> k < |order| && order[k] == h
    ensures h !in order ==> k == |order|
  {
    if h in order then (var k: nat :| k < |order| && order[k] == h; k) else |order|
  }

  ghost function Rank(order: seq<string>, p: Problem): nat {
    if p.scope == Namespace then Place(order, Home(p)) else |order|
  }

  ghost function HomeBefore(order: seq<string>): (Problem, Problem) -> bool {
    (a: Problem, b: Problem) => Rank(order, a) < Rank(order, b)
  }

  /** The rows come in this order of their namespaces. */
  ghost predicate Follows(ps: seq<Problem>, order: seq<string>) {
    IsOrder(ps, order) && Sorted(ps, HomeBefore(order))
  }

  lemma FollowsRank(ps: seq<Problem>, order: seq<string>, i: nat, j: nat)
    requires Follows(ps, order) && i <= j < |ps|
    ensures Rank(order, ps[i]) <= Rank(order, ps[j])
  {
    if i < j {
      assert !HomeBefore(order)(ps[j], ps[i]);
    }
  }

  lemma FollowingIsBlocked(ps: seq<Problem>, order: seq<string>)
    requires Follows(ps, order)
    ensures Blocked(ps)
  {
    forall i: nat, j: nat | i < j && IsRow(ps, j) ensures IsRow(ps, i) {
      FollowsRank(ps, order, i, j);
    }
    forall i: nat, j: nat, k: nat | Spans(ps, i, j, k) ensures Home(ps[j]) == Home(ps[k]) {
      FollowsRank(ps, order, i, k);
      FollowsRank(ps, order, i, j);
      FollowsRank(ps, order, j, k);
    }
  }

  /** The rows of these namespaces. */
  ghost predicate RowsIn(ps: seq<Problem>, homes: seq<string>) {
    forall p :: p in ps ==> p.scope == Namespace && Home(p) in homes
  }

  /** The next namespace's rows go after the others. */
  lemma BlockAppended(ps: seq<Problem>, homes: seq<string>, h: string, more: seq<Problem>)
    requires Blocked(ps) && RowsIn(ps, homes) && h !in homes && RowsIn(more, [h])
    ensures Blocked(ps + more) && RowsIn(ps + more, homes + [h])
  {
    var qs := ps + more;
    forall i: nat | i < |qs| ensures IsRow(qs, i) && (if i < |ps| then Home(qs[i]) in homes else Home(qs[i]) == h) {
      assert if i < |ps| then qs[i] in ps else qs[i] in more;
    }
    forall i: nat, j: nat, k: nat | Spans(qs, i, j, k) ensures Home(qs[j]) == Home(qs[k]) {
      if k < |ps| {
        assert IsRow(ps, k) && Spans(ps, i, j, k);
      }
    }
  }

  /** And the cluster's rows after all of them. */
  lemma ClusterAppended(ps: seq<Problem>, homes: seq<string>, more: seq<Problem>)
    requires Blocked(ps) && RowsIn(ps, homes) && forall p :: p in more ==> p.scope != Namespace
    ensures Blocked(ps + more)
  {
    var qs := ps + more;
    forall i: nat | i < |qs| ensures IsRow(qs, i) <==> i < |ps| {
      assert if i < |ps| then qs[i] in ps else qs[i] in more;
    }
    forall i: nat, j: nat, k: nat | Spans(qs, i, j, k) ensures Home(qs[j]) == Home(qs[k]) {
      assert IsRow(ps, k) && Spans(ps, i, j, k);
    }
  }

  lemma BlockedPrefix(ps: seq<Problem>, n: nat)
    requires Blocked(ps) && n <= |ps|
    ensures Blocked(ps[..n])
  {
    var qs := ps[..n];
    forall i: nat, j: nat | i < j && IsRow(qs, j) ensures IsRow(qs, i) {
      assert IsRow(ps, j) && IsRow(ps, i);
    }
    forall i: nat, j: nat, k: nat | Spans(qs, i, j, k) ensures Home(qs[j]) == Home(qs[k]) {
      assert Spans(ps, i, j, k);
    }
  }

  ghost predicate HasHome(ps: seq<Problem>, h: string) {
    exists i: nat :: IsRow(ps, i) && Home(ps[i]) == h
  }

  lemma PlaceKept(order: seq<string>, h: string, g: string)
    requires Distinct(order) && h !in order && g in order
    ensures Place(order + [h], g) == Place(order, g)
  {
    DistinctAppend(order, h);
    var x, y := Place(order, g), Place(order + [h], g);
    assert (order + [h])[x] == g;
  }

  lemma LastPlace(order: seq<string>, h: string)
    requires Distinct(order) && order != [] && order[|order| - 1] == h
    ensures Place(order, h) == |order| - 1
  {
  }

  lemma RankKept(order: seq<string>, h: string, p: Problem)
    requires Distinct(order) && h !in order && p.scope == Namespace && Home(p) in order
    ensures Rank(order + [h], p) == Rank(order, p)
  {
    PlaceKept(order, h, Home(p));
  }

  /** An order that the rows follow, and that ends with the last row's namespace. */
  ghost predicate OrderedBy(ps: seq<Problem>, order: seq<string>) {
    && Follows(ps, order) && (forall h :: h in order ==> HasHome(ps, h))
    && (ps != [] && ps[|ps| - 1].scope == Namespace ==> order != [] && order[|order| - 1] == Home(ps[|ps| - 1]))
  }

  /** Rows in order, and one more that comes no earlier than any of them. */
  lemma SortedMore(ps: seq<Problem>, order: seq<string>, p: Problem)
    requires Sorted(ps, HomeBefore(order)) && forall q :: q in ps ==> Rank(order, q) <= Rank(order, p)
    ensures Sorted(ps + [p], HomeBefore(order))
  {
  }

  lemma HasHomeMore(ps: seq<Problem>, p: Problem, h: string)
    requires HasHome(ps, h) || (p.scope == Namespace && Home(p) == h)
    ensures HasHome(ps + [p], h)
  {
    if i: nat :| IsRow(ps, i) && Home(ps[i]) == h {
      assert IsRow(ps + [p], i) && Home((ps + [p])[i]) == h;
    } else {
      assert IsRow(ps + [p], |ps|);
    }
  }

  lemma IsOrderMore(ps: seq<Problem>, order: seq<string>, p: Problem, more: seq<string>)
    requires IsOrder(ps, order) && Distinct(more) && forall h :: h in order ==> h in more
    requires p.scope == Namespace ==> Home(p) in more
    ensures IsOrder(ps + [p], more)
  {
    forall i: nat | IsRow(ps + [p], i) ensures Home((ps + [p])[i]) in more {
      assert i < |ps| ==> IsRow(ps, i) && Home(ps[i]) in order;
    }
  }

  lemma RankInOrder(ps: seq<Problem>, order: seq<string>, q: Problem)
    requires IsOrder(ps, order) && q in ps && q.scope == Namespace
    ensures Home(q) in order && Rank(order, q) < |order|
  {
    var i: nat :| i < |ps| && ps[i] == q;
    assert IsRow(ps, i);
  }

  lemma SortedInLonger(ps: seq<Problem>, order: seq<string>, h: string)
    requires Follows(ps, order) && h !in order && forall q :: q in ps ==> q.scope == Namespace
    ensures Sorted(ps, HomeBefore(order + [h]))
  {
    forall i, j | 0 <= i < j < |ps| ensures !HomeBefore(order + [h])(ps[j], ps[i]) {
      assert ps[i] in ps && ps[j] in ps && !HomeBefore(order)(ps[j], ps[i]);
      RankInOrder(ps, order, ps[i]);
      RankInOrder(ps, order, ps[j]);
      RankKept(order, h, ps[i]);
      RankKept(order, h, ps[j]);
    }
  }

  /** A namespace that starts goes to the end of the order. */
  lemma FollowsNew(ps: seq<Problem>, order: seq<string>, p: Problem)
    requires OrderedBy(ps, order) && p.scope == Namespace && Home(p) !in order
    requires forall q :: q in ps ==> q.scope == Namespace
    ensures OrderedBy(ps + [p], order + [Home(p)])
  {
    var more := order + [Home(p)];
    DistinctAppend(order, Home(p));
    IsOrderMore(ps, order, p, more);
    SortedInLonger(ps, order, Home(p));
    LastPlace(more, Home(p));
    forall q | q in ps ensures Rank(more, q) <= Rank(more, p) {
      RankInOrder(ps, order, q);
      RankKept(order, Home(p), q);
    }
    SortedMore(ps, more, p);
    forall h | h in more ensures HasHome(ps + [p], h) {
      HasHomeMore(ps, p, h);
    }
  }

  lemma FollowsSame(ps: seq<Problem>, order: seq<string>, p: Problem)
    requires OrderedBy(ps, order)
    requires p.scope == Namespace ==> order != [] && order[|order| - 1] == Home(p)
    requires p.scope == Namespace ==> forall q :: q in ps ==> q.scope == Namespace
    ensures OrderedBy(ps + [p], order)
  {
    IsOrderMore(ps, order, p, order);
    forall q | q in ps ensures Rank(order, q) <= Rank(order, p) {
      if p.scope == Namespace {
        LastPlace(order, Home(p));
        RankInOrder(ps, order, q);
      }
    }
    SortedMore(ps, order, p);
    forall h | h in order ensures HasHome(ps + [p], h) {
      HasHomeMore(ps, p, h);
    }
  }

  /** A blocked listing follows the order its namespaces come in. */
  lemma {:induction false} BlockedFollows(ps: seq<Problem>) returns (order: seq<string>)
    requires Blocked(ps)
    ensures OrderedBy(ps, order)
  {
    if ps == [] {
      order := [];
    } else {
      var n := |ps| - 1;
      var front, p := ps[..n], ps[n];
      BlockedPrefix(ps, n);
      order := BlockedFollows(front);
      assert ps == front + [p];
      if p.scope == Namespace {
        RowsBefore(ps, n);
      }
      if p.scope == Namespace && Home(p) !in order {
        FollowsNew(front, order, p);
        order := order + [Home(p)];
      } else {
        if p.scope == Namespace {
          LastHomeAgain(ps, order);
        }
        FollowsSame(front, order, p);
      }
    }
  }

  lemma RowsBefore(ps: seq<Problem>, n: nat)
    requires Blocked(ps) && IsRow(ps, n)
    ensures forall q :: q in ps[..n] ==> q.scope == Namespace
  {
    forall q | q in ps[..n] ensures q.scope == Namespace {
      var i: nat :| i < n && ps[..n][i] == q;
      assert IsRow(ps, i);
    }
  }

  /** In a blocked listing a namespace that has begun goes on from the row before. */
  lemma LastHomeAgain(ps: seq<Problem>, order: seq<string>)
    requires Blocked(ps) && ps != [] && IsRow(ps, |ps| - 1)
    requires OrderedBy(ps[..|ps| - 1], order) && Home(ps[|ps| - 1]) in order
    ensures order != [] && order[|order| - 1] == Home(ps[|ps| - 1])
  {
    var n := |ps| - 1;
    var front, h := ps[..n], Home(ps[n]);
    assert HasHome(front, h);
    var i: nat :| IsRow(front, i) && Home(front[i]) == h;
    assert front[n - 1] == ps[n - 1] && ps[i] == front[i];
    assert i < n - 1 ==> Spans(ps, i, n - 1, n);
    assert IsRow(ps, n - 1);
  }

  // ---- What an order of the namespaces puts together -----------------------

  /** The pair rule links the two rows when the first one's namespace comes first, or the infrastructure rule does. */
  ghost predicate HeldRule(ps: seq<Problem>, order: seq<string>, i: nat, j: nat) {
    && IsRow(ps, i) && IsRow(ps, j)
    && ((PairRule(ps[i], ps[j]) && Place(order, Home(ps[i])) < Place(order, Home(ps[j]))) || InfraRule(ps, i, j))
  }

  ghost function Held(ps: seq<Problem>, order: seq<string>): set<(nat, nat)> {
    set i: nat, j: nat | i < |ps| && j < |ps| && HeldRule(ps, order, i, j) :: (i, j)
  }

  /** Every two rows that the pair rule links one way round are together in every order of the namespaces. */
  ghost predicate BlockFree(ps: seq<Problem>) {
    forall order: seq<string> {:trigger IsOrder(ps, order)} :: IsOrder(ps, order) ==> HoldsAll(ps, order)
  }

  ghost predicate HoldsAll(ps: seq<Problem>, order: seq<string>) {
    forall i: nat, j: nat :: IsRow(ps, i) && IsRow(ps, j) && PairRule(ps[i], ps[j]) ==> Connected(Held(ps, order), i, j)
  }

  lemma HeldMoves(ps: seq<Problem>, qs: seq<Problem>, order: seq<string>, i: nat, j: nat)
    requires Permutes(ps, qs) && HeldRule(ps, order, i, j)
    ensures HeldRule(qs, order, Moved(ps, qs)(i), Moved(ps, qs)(j))
  {
    var a, b := Moved(ps, qs)(i), Moved(ps, qs)(j);
    MovedRow(ps, qs, i);
    MovedRow(ps, qs, j);
    if InfraRule(ps, i, j) {
      SameBucket(ps, qs, Primary(ps[i]), ps[i].tier);
      SameBucket(qs, ps, Primary(ps[i]), ps[i].tier);
      assert BucketHomes(qs, Primary(qs[a]), qs[a].tier) == BucketHomes(ps, Primary(ps[i]), ps[i].tier);
      assert InfraRule(qs, a, b);
    }
  }

  /** What an order of the namespaces puts together, it puts together however the rows are listed. */
  lemma HeldCauseMoves(ps: seq<Problem>, qs: seq<Problem>, order: seq<string>, i: nat, j: nat)
    requires Permutes(ps, qs) && Connected(Held(ps, order), i, j)
    ensures Connected(Held(qs, order), Moved(ps, qs)(i), Moved(ps, qs)(j))
  {
    var to := Moved(ps, qs);
    forall l | l in Held(ps, order) ensures Connected(Held(qs, order), to(l.0), to(l.1)) {
      HeldMoves(ps, qs, order, l.0, l.1);
      MovedRow(ps, qs, l.0);
      MovedRow(ps, qs, l.1);
      assert (to(l.0), to(l.1)) in Held(qs, order);
      ConnectedLink(Held(qs, order), to(l.0), to(l.1));
    }
    ConnectedMap(Held(ps, order), Held(qs, order), to, i, j);
  }

  /** In a listing that follows the order, those are the links of the listing. */
  lemma HeldAreLinks(ps: seq<Problem>, order: seq<string>)
    requires Follows(ps, order)
    ensures Held(ps, order) == Links(ps)
  {
    forall i: nat, j: nat ensures HeldRule(ps, order, i, j) <==> LinkRule(ps, i, j) {
      if IsRow(ps, i) && IsRow(ps, j) && PairRule(ps[i], ps[j]) {
        FollowingPlaces(ps, order, i, j);
      }
    }
  }

  lemma FollowingPlaces(ps: seq<Problem>, order: seq<string>, i: nat, j: nat)
    requires Follows(ps, order) && IsRow(ps, i) && IsRow(ps, j) && Home(ps[i]) != Home(ps[j])
    ensures i < j <==> Place(order, Home(ps[i])) < Place(order, Home(ps[j]))
  {
    if i <= j {
      FollowsRank(ps, order, i, j);
    } else {
      FollowsRank(ps, order, j, i);
    }
  }

  /** Under the condition all orders put the same rows together. */
  lemma HeldByEvery(ps: seq<Problem>, order: seq<string>, other: seq<string>, i: nat, j: nat)
    requires HoldsAll(ps, other) && Connected(Held(ps, order), i, j)
    ensures Connected(Held(ps, other), i, j)
  {
    forall l | l in Held(ps, order) ensures Connected(Held(ps, other), l.0, l.1) {
      assert HeldRule(ps, order, l.0, l.1);
      if InfraRule(ps, l.0, l.1) {
        assert HeldRule(ps, other, l.0, l.1);
        assert (l.0, l.1) in Held(ps, other);
        ConnectedLink(Held(ps, other), l.0, l.1);
      }
    }
    ConnectedAbsorb(Held(ps, other), Held(ps, order), i, j);
  }

  lemma OrderMoves(ps: seq<Problem>, qs: seq<Problem>, order: seq<string>)
    requires Permutes(ps, qs) && IsOrder(qs, order)
    ensures IsOrder(ps, order)
  {
    forall i: nat | IsRow(ps, i) ensures Home(ps[i]) in order {
      MovedRow(ps, qs, i);
      assert IsRow(qs, Moved(ps, qs)(i));
    }
  }

  /** Two listings of the same rows, each following its order, link the same rows. */
  lemma BlockFreeMoves(ps: seq<Problem>, qs: seq<Problem>, order: seq<string>, other: seq<string>, i: nat, j: nat)
    requires Permutes(ps, qs) && Follows(ps, order) && Follows(qs, other) && HoldsAll(ps, other) && SameCause(ps, i, j)
    ensures SameCause(qs, Moved(ps, qs)(i), Moved(ps, qs)(j))
  {
    MovedRow(ps, qs, i);
    MovedRow(ps, qs, j);
    HeldAreLinks(ps, order);
    HeldByEvery(ps, order, other, i, j);
    HeldCauseMoves(ps, qs, other, i, j);
    HeldAreLinks(qs, other);
  }

  lemma BlockFreeMovesBack(ps: seq<Problem>, qs: seq<Problem>, order: seq<string>, other: seq<string>, a: nat, b: nat)
    requires Permutes(ps, qs) && Follows(ps, order) && Follows(qs, other) && HoldsAll(ps, order) && SameCause(qs, a, b)
    ensures SameCause(ps, Moved(qs, ps)(a), Moved(qs, ps)(b))
  {
    var i, j := Moved(qs, ps)(a), Moved(qs, ps)(b);
    MovedRow(qs, ps, a);
    MovedRow(qs, ps, b);
    HeldAreLinks(qs, other);
    HeldCauseMoves(qs, ps, other, a, b);
    HeldByEvery(ps, other, order, i, j);
    HeldAreLinks(ps, order);
  }

  lemma BlockFreeSameGroups(ps: seq<Problem>, qs: seq<Problem>)
    requires Permutes(ps, qs) && DistinctKeys(ps) && Blocked(ps) && Blocked(qs) && BlockFree(ps)
    ensures SameGroups(ps, qs)
  {
    var order := BlockedFollows(ps);
    var other := BlockedFollows(qs);
    OrderMoves(ps, qs, other);
    forall i: nat, j: nat | i < |ps| && j < |ps|
      ensures SameCause(ps, i, j) <==> SameCause(qs, Moved(ps, qs)(i), Moved(ps, qs)(j))
    {
      if SameCause(ps, i, j) {
        BlockFreeMoves(ps, qs, order, other, i, j);
      }
      if SameCause(qs, Moved(ps, qs)(i), Moved(ps, qs)(j)) {
        BlockFreeMovesBack(ps, qs, order, other, Moved(ps, qs)(i), Moved(ps, qs)(j));
        MovedBack(ps, qs, i);
        MovedBack(ps, qs, j);
      }
    }
  }

  // ---- When the order of the namespaces matters ----------------------------

  ghost predicate SameInEveryBlockedOrder(ps: seq<Problem>) {
    forall qs :: Permutes(ps, qs) && Blocked(qs) ==> SameGroups(ps, qs)
  }

  /** Every order of the namespaces is followed by some blocked listing. */
  lemma Following(ps: seq<Problem>, order: seq<string>) returns (qs: seq<Problem>)
    requires IsOrder(ps, order)
    ensures Permutes(ps, qs) && Follows(qs, order) && Blocked(qs)
  {
    qs := StableSort(ps, HomeBefore(order));
    StableSortPermutes(ps, HomeBefore(order));
    StableSortSorted(ps, HomeBefore(order));
    OrderMoves(qs, ps, order);
    FollowingIsBlocked(qs, order);
  }

  /** What some blocked listing keeps together in all of them, every order of the namespaces holds together. */
  lemma SameGroupsAreHeld(ps: seq<Problem>, order: seq<string>, i: nat, j: nat)
    requires DistinctKeys(ps) && IsOrder(ps, order) && SameInEveryBlockedOrder(ps) && i < |ps| && j < |ps|
    ensures SameCause(ps, i, j) <==> IsRow(ps, i) && IsRow(ps, j) && Connected(Held(ps, order), i, j)
  {
    var qs := Following(ps, order);
    HeldAreLinks(qs, order);
    assert SameGroups(ps, qs);
    var a, b := Moved(ps, qs)(i), Moved(ps, qs)(j);
    MovedRow(ps, qs, i);
    MovedRow(ps, qs, j);
    MovedBack(ps, qs, i);
    MovedBack(ps, qs, j);
    assert SameCause(ps, i, j) <==> SameCause(qs, a, b);
    if Connected(Held(ps, order), i, j) {
      HeldCauseMoves(ps, qs, order, i, j);
    }
    if SameCause(qs, a, b) {
      HeldCauseMoves(qs, ps, order, a, b);
    }
  }

  /** Some order of the namespaces puts one before the other. */
  lemma OrderWith(ps: seq<Problem>, order: seq<string>, h: string, g: string) returns (other: seq<string>)
    requires IsOrder(ps, order) && h in order && g in order && h != g
    ensures IsOrder(ps, other) && Place(other, h) < Place(other, g)
  {
    var x, y := Place(order, h), Place(order, g);
    if x < y {
      other := order;
    } else {
      other := order[x := g][y := h];
      assert other[x] == g && other[y] == h;
      assert forall k :: 0 <= k < |order| && k != x && k != y ==> other[k] == order[k];
      forall f | f in order ensures f in other {
        var k :| 0 <= k < |order| && order[k] == f;
        assert f == h || f == g || other[k] == f;
      }
    }
  }

  /** A pair linked one way round is together when its first namespace comes first. */
  lemma LinkedInSomeBlockedOrder(ps: seq<Problem>, order: seq<string>, i: nat, j: nat)
    requires DistinctKeys(ps) && IsOrder(ps, order) && SameInEveryBlockedOrder(ps)
    requires IsRow(ps, i) && IsRow(ps, j) && PairRule(ps[i], ps[j])
    ensures SameCause(ps, i, j)
  {
    var other := OrderWith(ps, order, Home(ps[i]), Home(ps[j]));
    assert HeldRule(ps, other, i, j);
    assert (i, j) in Held(ps, other);
    ConnectedLink(Held(ps, other), i, j);
    SameGroupsAreHeld(ps, other, i, j);
  }

  /** The order of Go's maps does not matter exactly when, in every order of the namespaces, every two rows that
      the pair rule links one way round are together. */
  lemma MapOrderMattersExactly(ps: seq<Problem>)
    requires DistinctKeys(ps) && Blocked(ps)
    ensures SameInEveryBlockedOrder(ps) <==> BlockFree(ps)
  {
    if BlockFree(ps) {
      forall qs | Permutes(ps, qs) && Blocked(qs) ensures SameGroups(ps, qs) {
        BlockFreeSameGroups(ps, qs);
      }
    }
    if SameInEveryBlockedOrder(ps) {
      forall order: seq<string> | IsOrder(ps, order) ensures HoldsAll(ps, order) {
        forall i: nat, j: nat | IsRow(ps, i) && IsRow(ps, j) && PairRule(ps[i], ps[j])
          ensures Connected(Held(ps, order), i, j)
        {
          LinkedInSomeBlockedOrder(ps, order, i, j);
          SameGroupsAreHeld(ps, order, i, j);
        }
      }
    }
  }

  lemma PlacesApart(ps: seq<Problem>, order: seq<string>, i: nat, j: nat)
    requires IsOrder(ps, order) && IsRow(ps, i) && IsRow(ps, j) && Home(ps[i]) != Home(ps[j])
    ensures Place(order, Home(ps[i])) != Place(order, Home(ps[j]))
  {
  }

  /** Rows that no order at all affects are not affected by the order of the namespaces. */
  lemma OrderFreeIsBlockFree(ps: seq<Problem>)
    requires OrderFree(ps)
    ensures BlockFree(ps)
  {
    forall order: seq<string> | IsOrder(ps, order) ensures HoldsAll(ps, order) {
      forall i: nat, j: nat | IsRow(ps, i) && IsRow(ps, j) && PairRule(ps[i], ps[j])
        ensures Connected(Held(ps, order), i, j)
      {
        FirmIsHeld(ps, order, i, j);
      }
    }
  }

  lemma FirmIsHeld(ps: seq<Problem>, order: seq<string>, i: nat, j: nat)
    requires IsOrder(ps, order) && Connected(Firm(ps), i, j)
    ensures Connected(Held(ps, order), i, j)
  {
    forall l | l in Firm(ps) ensures Connected(Held(ps, order), l.0, l.1) {
      var a, b := l.0, l.1;
      assert FirmRule(ps, a, b);
      if !InfraRule(ps, a, b) {
        PlacesApart(ps, order, a, b);
      }
      assert HeldRule(ps, order, a, b) || HeldRule(ps, order, b, a);
      assert (a, b) in Held(ps, order) || (b, a) in Held(ps, order);
      ConnectedLink(Held(ps, order), a, b);
    }
    ConnectedAbsorb(Held(ps, order), Firm(ps), i, j);
  }

  // ---- Two namespaces that hide each other's order -------------------------

  /** In each of two namespaces a row without any event time and one first seen 2^63 nanoseconds later, that
      only the clock can link. */
  ghost predicate Mirrored(ps: seq<Problem>) {
    && |ps| == 4 && (forall i: nat {:trigger IsRow(ps, i)} :: i < 4 ==> IsRow(ps, i))
    && Home(ps[0]) == Home(ps[1]) != Home(ps[2]) == Home(ps[3])
    && ps[0].firstSeen == ps[2].firstSeen == ZERO_TIME && ps[1].firstSeen == ps[3].firstSeen >= HALF_RANGE
    && ps[0].tier == ps[1].tier == ps[2].tier == ps[3].tier
    && ps[0].title != ps[3].title && ps[1].title != ps[2].title
    && forall p :: p in ps ==> Primary(p) !in INFRA_REASONS
  }

  lemma MirroredPairs(ps: seq<Problem>)
    requires Mirrored(ps)
    ensures PairRule(ps[0], ps[2]) && PairRule(ps[2], ps[0]) && PairRule(ps[1], ps[3]) && PairRule(ps[3], ps[1])
    ensures PairRule(ps[0], ps[3]) && !PairRule(ps[3], ps[0]) && PairRule(ps[2], ps[1]) && !PairRule(ps[1], ps[2])
  {
    StartedTogetherExactly(ps[0].firstSeen, ps[3].firstSeen);
    StartedTogetherExactly(ps[3].firstSeen, ps[0].firstSeen);
  }

  lemma MirroredFirm(ps: seq<Problem>, i: nat, j: nat)
    requires Mirrored(ps) && FirmRule(ps, i, j)
    ensures i % 2 == j % 2
  {
    MirroredPairs(ps);
    assert ps[i] in ps;
  }

  /** All four are together when one cross pair is. */
  lemma FourTogether(links: set<(nat, nat)>, i: nat, j: nat)
    requires Connected(links, 0, 2) && Connected(links, 1, 3) && (Connected(links, 0, 3) || Connected(links, 2, 1))
    requires i < 4 && j < 4
    ensures Connected(links, i, j)
  {
    ConnectedRefl(links, 0);
    ConnectedSym(links, 1, 3);
    if Connected(links, 0, 3) {
      ConnectedTrans(links, 0, 3, 1);
    } else {
      ConnectedTrans(links, 0, 2, 1);
      ConnectedTrans(links, 0, 1, 3);
    }
    ConnectedSym(links, 0, i);
    ConnectedTrans(links, i, 0, j);
  }

  lemma MirroredHeld(ps: seq<Problem>, order: seq<string>)
    requires Mirrored(ps) && IsOrder(ps, order)
    ensures HoldsAll(ps, order)
  {
    var links := Held(ps, order);
    MirroredPairs(ps);
    assert IsRow(ps, 0) && IsRow(ps, 1) && IsRow(ps, 2) && IsRow(ps, 3);
    PlacesApart(ps, order, 0, 2);
    assert HeldRule(ps, order, 0, 2) || HeldRule(ps, order, 2, 0);
    assert HeldRule(ps, order, 1, 3) || HeldRule(ps, order, 3, 1);
    assert HeldRule(ps, order, 0, 3) || HeldRule(ps, order, 2, 1);
    assert (0, 2) in links || (2, 0) in links;
    assert (1, 3) in links || (3, 1) in links;
    ConnectedLink(links, 0, 2);
    ConnectedLink(links, 1, 3);
    if HeldRule(ps, order, 0, 3) {
      assert (0, 3) in links;
      ConnectedLink(links, 0, 3);
    } else {
      assert (2, 1) in links;
      ConnectedLink(links, 2, 1);
    }
    forall i: nat, j: nat | IsRow(ps, i) && IsRow(ps, j) ensures Connected(links, i, j) {
      FourTogether(links, i, j);
    }
  }

  /** Such rows are put together differently in some order, but in none that Go's maps can give. */
  lemma NamespacesHideOrder(ps: seq<Problem>)
    requires Mirrored(ps)
    ensures Blocked(ps) && BlockFree(ps) && !OrderFree(ps)
  {
    forall order: seq<string> | IsOrder(ps, order) ensures HoldsAll(ps, order) {
      MirroredHeld(ps, order);
    }
    assert IsRow(ps, 0) && IsRow(ps, 3);
    MirroredPairs(ps);
    if Connected(Firm(ps), 0, 3) {
      var f := (k: nat) => k % 2;
      forall l | l in Firm(ps) ensures f(l.0) == f(l.1) {
        MirroredFirm(ps, l.0, l.1);
      }
      ConnectedInvariant(Firm(ps), f, 0, 3);
    }
  }

  // ---- The page ------------------------------------------------------------

  ghost predicate OneBlockedPage(ps: seq<Problem>, now: Time) {
    forall qs, page, page' {:trigger IsPage(ps, now, page), IsPage(qs, now, page')} ::
      Permutes(ps, qs) && Blocked(qs) && IsPage(ps, now, page) && IsPage(qs, now, page') ==> page == page'
  }

  /** There is one page for every order that Go's maps can give exactly under the same condition. */
  lemma OneBlockedPageExactly(ps: seq<Problem>, now: Time)
    requires KeysOk(ps) && Blocked(ps)
    ensures OneBlockedPage(ps, now) <==> BlockFree(ps)
  {
    MapOrderMattersExactly(ps);
    if BlockFree(ps) {
      forall qs, page, page' | Permutes(ps, qs) && Blocked(qs) && IsPage(ps, now, page) && IsPage(qs, now, page')
        ensures page == page'
      {
        SamePageExactly(ps, qs, now, page, page');
      }
    }
    if OneBlockedPage(ps, now) {
      forall qs | Permutes(ps, qs) && Blocked(qs) ensures SameGroups(ps, qs) {
        var page := PageExists(ps, now);
        var page' := PageExists(qs, now);
        SamePageExactly(ps, qs, now, page, page');
      }
    }
  }
}
