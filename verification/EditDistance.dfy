/** The Levenshtein distance of linked.go: the two-row loop, the recursive definition, and the least number
    of single-byte edits. */
module EditDistance {

  newtype byte = b: int | 0 <= b < 0x100

  type Text = seq<byte>

  function Min(x: int, y: int): int {
    if x <= y then x else y
  }

  function Min3(x: int, y: int, z: int): int {
    Min(x, Min(y, z))
  }

  function Front(s: Text): Text
    requires s != []
  {
    s[..|s| - 1]
  }

  function Last(s: Text): byte
    requires s != []
  {
    s[|s| - 1]
  }

  function Lev(a: Text, b: Text): (d: nat)
    decreases |a| + |b|
  {
    if a == [] then |b|
    else if b == [] then |a|
    else Min3(Lev(Front(a), b) + 1, Lev(a, Front(b)) + 1, Lev(Front(a), Front(b)) + if Last(a) == Last(b) then 0 else 1)
  }

  /** The table: the distance from a prefix of a to a prefix of b. */
  ghost function Cell(a: Text, b: Text, i: nat, j: nat): nat
    requires i <= |a| && j <= |b|
  {
    Lev(a[..i], b[..j])
  }

  lemma CellStep(a: Text, b: Text, i: nat, j: nat)
    requires 0 < i <= |a| && 0 < j <= |b|
    ensures Cell(a, b, i, j) == Min3(Cell(a, b, i - 1, j) + 1, Cell(a, b, i, j - 1) + 1,
                                     Cell(a, b, i - 1, j - 1) + if a[i - 1] == b[j - 1] then 0 else 1)
  {
    assert Front(a[..i]) == a[..i - 1] && Front(b[..j]) == b[..j - 1];
  }

  ghost predicate IsRow(row: seq<nat>, a: Text, b: Text, i: nat)
    requires i <= |a|
  {
    |row| == |b| + 1 && forall j {:trigger row[j]} :: 0 <= j <= |b| ==> row[j] == Cell(a, b, i, j)
  }

  method NextRow(a: Text, b: Text, i: nat, prev: array<nat>) returns (cur: array<nat>)
    requires 1 <= i <= |a| && IsRow(prev[..], a, b, i - 1)
    ensures IsRow(cur[..], a, b, i)
  {
    cur := new nat[|b| + 1](j => i);
    assert |prev[..]| == prev.Length;
    ghost var row: seq<nat> := [i];
    for j := 1 to |b| + 1
      invariant |row| == j && cur[..j] == row
      invariant forall k {:trigger row[k]} :: 0 <= k < j ==> row[k] == Cell(a, b, i, k)
    {
      var cost := 1;
      if a[i - 1] == b[j - 1] {
        cost := 0;
      }
      CellStep(a, b, i, j);
      assert prev[..][j] == prev[j] && prev[..][j - 1] == prev[j - 1];
      assert cur[j - 1] == row[j - 1];
      var v := Min3(prev[j] + 1, cur[j - 1] + 1, prev[j - 1] + cost);
      assert v == Cell(a, b, i, j);
      cur[j] := v;
      row := row + [v];
      assert cur[..j + 1] == row;
    }
    assert cur[..] == row;
  }

  /** The rows of the table, two at a time. */
  method EditDistance(a: Text, b: Text) returns (d: nat)
    ensures d == Lev(a, b)
  {
    var prev := new nat[|b| + 1](j => j);
    for i := 1 to |a| + 1
      invariant IsRow(prev[..], a, b, i - 1)
    {
      prev := NextRow(a, b, i, prev);
    }
    assert a[..|a|] == a && b[..|b|] == b;
    assert |prev[..]| == prev.Length && prev[..][|b|] == prev[|b|];
    d := prev[|b|];
  }

  // ---- The distance is a metric --------------------------------------------

  lemma {:induction false} LevSymmetric(a: Text, b: Text)
    ensures Lev(a, b) == Lev(b, a)
    decreases |a| + |b|
  {
    if a != [] && b != [] {
      LevSymmetric(Front(a), b);
      LevSymmetric(a, Front(b));
      LevSymmetric(Front(a), Front(b));
    }
  }

  /** Dropping a byte at the end of one side changes the distance by at most one. */
  lemma {:induction false} LevStep(a: Text, b: Text)
    requires a != []
    ensures Lev(a, b) <= Lev(Front(a), b) + 1
  {
    if b == [] {
      assert Lev(Front(a), b) == |a| - 1;
    }
  }

  lemma {:induction false} LevZero(a: Text, b: Text)
    ensures Lev(a, b) == 0 <==> a == b
    decreases |a| + |b|
  {
    if a != [] && b != [] {
      LevZero(Front(a), Front(b));
      assert a == Front(a) + [Last(a)] && b == Front(b) + [Last(b)];
    }
  }

  lemma {:induction false} LevTriangle(a: Text, b: Text, c: Text)
    ensures Lev(a, c) <= Lev(a, b) + Lev(b, c)
    decreases |a| + |b| + |c|
  {
    if a == [] || c == [] || b == [] {
      LevLength(a, b);
      LevLength(b, c);
      LevLength(a, c);
    } else {
      LevTriangle(Front(a), b, c);
      LevTriangle(a, b, Front(c));
      LevTriangle(a, Front(b), c);
      LevTriangle(a, Front(b), Front(c));
      LevTriangle(Front(a), Front(b), c);
      LevTriangle(Front(a), Front(b), Front(c));
    }
  }

  /** The distance is at least the difference in length and at most the greater length. */
  lemma {:induction false} LevLength(a: Text, b: Text)
    ensures |a| - |b| <= Lev(a, b) && |b| - |a| <= Lev(a, b)
    ensures Lev(a, b) <= if |a| < |b| then |b| else |a|
    decreases |a| + |b|
  {
    if a != [] && b != [] {
      LevLength(Front(a), b);
      LevLength(a, Front(b));
      LevLength(Front(a), Front(b));
    }
  }

  // ---- Edits ---------------------------------------------------------------

  datatype Edit = Insert(at: nat, c: byte) | Delete(at: nat) | Substitute(at: nat, c: byte)

  predicate Applies(e: Edit, s: Text) {
    if e.Insert? then e.at <= |s| else e.at < |s|
  }

  function Apply(e: Edit, s: Text): Text
    requires Applies(e, s)
  {
    match e
    case Insert(i, c) => s[..i] + [c] + s[i..]
    case Delete(i) => s[..i] + s[i + 1..]
    case Substitute(i, c) => s[i := c]
  }

  /** The edits, one after the other, turn a into b. */
  ghost predicate Turns(a: Text, edits: seq<Edit>, b: Text)
    decreases |edits|
  {
    if edits == [] then a == b
    else Applies(edits[0], a) && Turns(Apply(edits[0], a), edits[1..], b)
  }

  lemma {:induction false} LevSuffix(a: Text, b: Text, s: Text)
    ensures Lev(a + s, b + s) <= Lev(a, b)
    decreases |s|
  {
    if s == [] {
      assert a + s == a && b + s == b;
    } else {
      LevSuffix(a, b, Front(s));
      assert Front(a + s) == a + Front(s) && Front(b + s) == b + Front(s);
    }
  }

  lemma InsertDistance(p: Text, c: byte, s: Text)
    ensures Lev(p + s, p + [c] + s) <= 1 && Lev(p + [c] + s, p + s) <= 1
  {
    LevZero(p, p);
    LevStep(p + [c], p);
    assert Front(p + [c]) == p;
    LevSuffix(p + [c], p, s);
    LevSymmetric(p + s, p + [c] + s);
  }

  lemma SubstituteDistance(p: Text, c: byte, d: byte, s: Text)
    ensures Lev(p + [c] + s, p + [d] + s) <= 1
  {
    LevZero(p, p);
    assert Front(p + [c]) == p == Front(p + [d]);
    LevSuffix(p + [c], p + [d], s);
  }

  /** One edit moves a text by at most one. */
  lemma EditDistanceOne(e: Edit, s: Text)
    requires Applies(e, s)
    ensures Lev(s, Apply(e, s)) <= 1
  {
    var i := e.at;
    match e
    case Insert(_, c) =>
      InsertDistance(s[..i], c, s[i..]);
      assert s[..i] + s[i..] == s;
    case Delete(_) =>
      InsertDistance(s[..i], s[i], s[i + 1..]);
      assert s[..i] + [s[i]] + s[i + 1..] == s;
    case Substitute(_, c) =>
      SubstituteDistance(s[..i], s[i], c, s[i + 1..]);
      assert s[..i] + [s[i]] + s[i + 1..] == s && s[..i] + [c] + s[i + 1..] == s[i := c];
  }

  /** No fewer edits than the distance turn a into b. */
  lemma {:induction false} EditsAtLeast(a: Text, edits: seq<Edit>, b: Text)
    requires Turns(a, edits, b)
    ensures |edits| >= Lev(a, b)
    decreases |edits|
  {
    if edits == [] {
      LevZero(a, b);
    } else {
      var a' := Apply(edits[0], a);
      EditsAtLeast(a', edits[1..], b);
      EditDistanceOne(edits[0], a);
      LevTriangle(a, a', b);
    }
  }

  lemma {:induction false} TurnsConcat(a: Text, xs: seq<Edit>, b: Text, ys: seq<Edit>, c: Text)
    requires Turns(a, xs, b) && Turns(b, ys, c)
    ensures Turns(a, xs + ys, c)
    decreases |xs|
  {
    if xs == [] {
      assert xs + ys == ys;
    } else {
      TurnsConcat(Apply(xs[0], a), xs[1..], b, ys, c);
      assert (xs + ys)[1..] == xs[1..] + ys;
    }
  }

  lemma ApplyBefore(e: Edit, a: Text, s: Text)
    requires Applies(e, a)
    ensures Applies(e, a + s) && Apply(e, a + s) == Apply(e, a) + s
  {
    assert (a + s)[..e.at] == a[..e.at] && (a + s)[e.at..] == a[e.at..] + s;
    if !e.Insert? {
      assert (a + s)[e.at + 1..] == a[e.at + 1..] + s;
    }
  }

  /** Edits of a prefix do not touch what follows it. */
  lemma {:induction false} TurnsBefore(a: Text, xs: seq<Edit>, b: Text, s: Text)
    requires Turns(a, xs, b)
    ensures Turns(a + s, xs, b + s)
    decreases |xs|
  {
    if xs != [] {
      ApplyBefore(xs[0], a, s);
      TurnsBefore(Apply(xs[0], a), xs[1..], b, s);
    }
  }

  lemma TurnsFirst(e: Edit, a: Text, xs: seq<Edit>, b: Text)
    requires Applies(e, a) && Turns(Apply(e, a), xs, b)
    ensures Turns(a, [e] + xs, b)
  {
    assert ([e] + xs)[1..] == xs;
  }

  lemma TurnsLast(a: Text, xs: seq<Edit>, b: Text, e: Edit)
    requires Turns(a, xs, b) && Applies(e, b)
    ensures Turns(a, xs + [e], Apply(e, b))
  {
    TurnsFirst(e, b, [], Apply(e, b));
    assert [e] + [] == [e];
    TurnsConcat(a, xs, b, [e], Apply(e, b));
  }

  lemma DeleteLast(a: Text, b: Text, xs: seq<Edit>)
    requires a != [] && Turns(Front(a), xs, b)
    ensures Turns(a, [Delete(|a| - 1)] + xs, b)
  {
    assert Apply(Delete(|a| - 1), a) == Front(a);
    TurnsFirst(Delete(|a| - 1), a, xs, b);
  }

  lemma InsertLast(a: Text, b: Text, xs: seq<Edit>)
    requires b != [] && Turns(a, xs, Front(b))
    ensures Turns(a, xs + [Insert(|b| - 1, Last(b))], b)
  {
    TurnsLast(a, xs, Front(b), Insert(|b| - 1, Last(b)));
    assert Apply(Insert(|b| - 1, Last(b)), Front(b)) == b;
  }

  /** Turning a's last byte into b's, after the rest. */
  lemma FrontAndLast(s: Text)
    requires s != []
    ensures Front(s) + [Last(s)] == s
  {
  }

  lemma SubstituteLast(p: Text, c: byte, d: byte)
    ensures Applies(Substitute(|p|, d), p + [c]) && Apply(Substitute(|p|, d), p + [c]) == p + [d]
  {
  }

  lemma TurnsLastByte(a: Text, b: Text, xs: seq<Edit>) returns (edits: seq<Edit>)
    requires a != [] && b != [] && Turns(Front(a), xs, Front(b))
    ensures Turns(a, edits, b) && |edits| == |xs| + if Last(a) == Last(b) then 0 else 1
  {
    var mid := Front(b) + [Last(a)];
    FrontAndLast(a);
    FrontAndLast(b);
    TurnsBefore(Front(a), xs, Front(b), [Last(a)]);
    edits := xs;
    if Last(a) != Last(b) {
      var e := Substitute(|b| - 1, Last(b));
      SubstituteLast(Front(b), Last(a), Last(b));
      TurnsLast(a, xs, mid, e);
      edits := xs + [e];
    }
  }

  /** As many edits as the distance are enough. */
  lemma {:induction false} EditsExist(a: Text, b: Text) returns (edits: seq<Edit>)
    ensures Turns(a, edits, b) && |edits| == Lev(a, b)
    decreases |a| + |b|
  {
    if a == [] && b == [] {
      edits := [];
    } else if b == [] || (a != [] && Lev(a, b) == Lev(Front(a), b) + 1) {
      edits := EditsExist(Front(a), b);
      DeleteLast(a, b, edits);
      edits := [Delete(|a| - 1)] + edits;
    } else if a == [] || Lev(a, b) == Lev(a, Front(b)) + 1 {
      edits := EditsExist(a, Front(b));
      InsertLast(a, b, edits);
      edits := edits + [Insert(|b| - 1, Last(b))];
    } else {
      edits := EditsExist(Front(a), Front(b));
      edits := TurnsLastByte(a, b, edits);
    }
  }

  /** The distance is exactly the least number of single-byte inserts, deletes and substitutions. */
  lemma LevIsLeastEdits(a: Text, b: Text)
    ensures exists edits :: Turns(a, edits, b) && |edits| == Lev(a, b)
    ensures forall edits :: Turns(a, edits, b) ==> |edits| >= Lev(a, b)
  {
    var edits := EditsExist(a, b);
    forall es | Turns(a, es, b) ensures |es| >= Lev(a, b) {
      EditsAtLeast(a, es, b);
    }
  }
}
