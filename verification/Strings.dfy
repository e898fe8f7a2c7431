/** Byte-wise string order and joining. */
module Strings {
  import opened Sequences

  predicate StringLess(a: string, b: string) {
    if b == [] then false
    else if a == [] then true
    else a[0] < b[0] || (a[0] == b[0] && StringLess(a[1..], b[1..]))
  }

  /** The shorter one, when it begins the other; otherwise the one with the smaller byte where they first differ. */
  ghost predicate FirstDifference(a: string, b: string, k: nat) {
    k <= |a| && k < |b| && a[..k] == b[..k] && (k == |a| || a[k] < b[k])
  }

  lemma {:induction false} StringLessExactly(a: string, b: string)
    ensures StringLess(a, b) <==> exists k: nat :: FirstDifference(a, b, k)
  {
    if b != [] && a != [] {
      StringLessExactly(a[1..], b[1..]);
      if k: nat :| FirstDifference(a, b, k) {
        if k > 0 {
          assert a[..k][0] == b[..k][0];
          assert a[1..][..k - 1] == a[..k][1..] && b[1..][..k - 1] == b[..k][1..];
          assert FirstDifference(a[1..], b[1..], k - 1);
        }
      }
      if StringLess(a, b) {
        if a[0] < b[0] {
          assert FirstDifference(a, b, 0);
        } else {
          var k: nat :| FirstDifference(a[1..], b[1..], k);
          assert a[..k + 1] == [a[0]] + a[1..][..k] && b[..k + 1] == [b[0]] + b[1..][..k];
          assert FirstDifference(a, b, k + 1);
        }
      }
    } else if b != [] {
      assert FirstDifference(a, b, 0);
    }
  }

  lemma StringLessAsymmetric(a: string, b: string)
    requires StringLess(a, b)
    ensures !StringLess(b, a)
  {
  }

  lemma StringLessTrichotomy(a: string, b: string)
    ensures a == b || StringLess(a, b) || StringLess(b, a)
  {
    if a != [] && b != [] && a[0] == b[0] {
      StringLessTrichotomy(a[1..], b[1..]);
      assert a == [a[0]] + a[1..] && b == [b[0]] + b[1..];
    }
  }

  lemma StringLessTransitive(a: string, b: string, c: string)
    requires StringLess(a, b) && StringLess(b, c)
    ensures StringLess(a, c)
  {
  }

  lemma StringLessTotal()
    ensures forall a, b :: StringLess(a, b) ==> !StringLess(b, a)
    ensures forall a, b :: a == b || StringLess(a, b) || StringLess(b, a)
    ensures forall a, b, c :: StringLess(a, b) && StringLess(b, c) ==> StringLess(a, c)
  {
    forall a, b | StringLess(a, b) ensures !StringLess(b, a) { StringLessAsymmetric(a, b); }
    forall a, b ensures a == b || StringLess(a, b) || StringLess(b, a) { StringLessTrichotomy(a, b); }
    forall a, b, c | StringLess(a, b) && StringLess(b, c) ensures StringLess(a, c) { StringLessTransitive(a, b, c); }
  }

  lemma StringLessIsWeakOrder()
    ensures WeakOrder(StringLess)
  {
    StringLessTotal();
    forall x, y, z | !StringLess(y, x) && !StringLess(z, y) ensures !StringLess(z, x) {
      assert StringLess(x, y) || x == y;
      assert StringLess(y, z) || y == z;
    }
  }

  function Join(parts: seq<string>, sep: char): string {
    if parts == [] then ""
    else if |parts| == 1 then parts[0]
    else parts[0] + [sep] + Join(parts[1..], sep)
  }

  lemma JoinHasSeparator(parts: seq<string>, sep: char)
    requires forall x :: x in parts ==> sep !in x
    ensures sep in Join(parts, sep) <==> |parts| > 1
  {
    if |parts| > 1 {
      assert Join(parts, sep)[|parts[0]|] == sep;
    } else if |parts| == 1 {
      assert sep !in parts[0];
    }
  }

  /** Joining is injective on lists of strings that do not contain the separator. */
  lemma {:induction false} JoinInjective(xs: seq<string>, ys: seq<string>, sep: char)
    requires forall x :: x in xs ==> sep !in x
    requires forall y :: y in ys ==> sep !in y
    requires xs != [] && ys != []
    requires Join(xs, sep) == Join(ys, sep)
    ensures xs == ys
    decreases |xs|
  {
    JoinHasSeparator(xs, sep);
    JoinHasSeparator(ys, sep);
    var x, y := xs[0], ys[0];
    assert xs == [x] + xs[1..] && ys == [y] + ys[1..];
    if |xs| > 1 {
      var s := Join(xs, sep);
      assert s == x + ([sep] + Join(xs[1..], sep)) == y + ([sep] + Join(ys[1..], sep));
      SeparatorIndex(s, x, Join(xs[1..], sep), sep);
      SeparatorIndex(s, y, Join(ys[1..], sep), sep);
      assert x == s[..|x|] == s[..|y|] == y;
      assert Join(xs[1..], sep) == s[|x| + 1..] == Join(ys[1..], sep);
      JoinInjective(xs[1..], ys[1..], sep);
    }
  }

  lemma SeparatorIndex(s: string, x: string, rest: string, sep: char)
    requires s == x + ([sep] + rest) && sep !in x
    ensures |x| < |s| && s[|x|] == sep && forall k :: 0 <= k < |x| ==> s[k] != sep
  {
    assert forall k :: 0 <= k < |x| ==> s[k] == x[k];
  }
}
