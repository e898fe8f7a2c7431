/** Text written row by row into a builder. */
module Rows {
  import opened Sequences
  import opened Tokens

  function Text(lines: seq<string>): string {
    if lines == [] then "" else Text(lines[..|lines| - 1]) + lines[|lines| - 1]
  }

  function RowWeight<T>(cls: Classifier, row: T -> string): T -> int {
    x => Weight(cls, row(x))
  }

  lemma {:induction false} TextWeight<T>(cls: Classifier, row: T -> string, xs: seq<T>)
    ensures Weight(cls, Text(Map(row, xs))) == SumBy(xs, RowWeight(cls, row))
  {
    if xs != [] {
      var n := |xs| - 1;
      TextWeight(cls, row, xs[..n]);
      MapStep(row, xs, n);
      assert xs[..n + 1] == xs;
      WeightConcat(cls, Text(Map(row, xs[..n])), row(xs[n]));
    }
  }

  method WriteRows<T>(row: T -> string, xs: seq<T>) returns (sb: string)
    ensures sb == Text(Map(row, xs))
  {
    sb := "";
    for i := 0 to |xs|
      invariant sb == Text(Map(row, xs[..i]))
    {
      MapStep(row, xs, i);
      sb := sb + row(xs[i]);
    }
    assert xs[..|xs|] == xs;
  }
}
