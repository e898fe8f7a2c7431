/** The token estimate of brief.go, with its weights in hundredths, and the printing of numbers. */
module Tokens {

  datatype CharClass = Letter | Digit | Space | Other

  /** unicode.IsLetter, IsDigit and IsSpace: any classification that is the real one on ASCII. */
  type Classifier = char -> CharClass

  function AsciiClass(c: char): CharClass {
    if 'a' <= c <= 'z' || 'A' <= c <= 'Z' then Letter
    else if '0' <= c <= '9' then Digit
    else if c == ' ' || '\t' <= c <= '\r' then Space
    else Other
  }

  ghost predicate AsciiOk(cls: Classifier) {
    forall c :: c <= '~' ==> cls(c) == AsciiClass(c)
  }

  function ClassWeight(k: CharClass): nat {
    match k
    case Letter => 23
    case Digit => 136
    case Other => 52
    case Space => 55
  }

  /** The estimated cost of a text, in hundredths of a token. */
  function Weight(cls: Classifier, s: string): nat {
    if s == [] then 0 else Weight(cls, s[..|s| - 1]) + ClassWeight(cls(s[|s| - 1]))
  }

  lemma {:induction false} WeightConcat(cls: Classifier, a: string, b: string)
    ensures Weight(cls, a + b) == Weight(cls, a) + Weight(cls, b)
  {
    if b == [] {
      assert a + b == a;
    } else {
      WeightConcat(cls, a, b[..|b| - 1]);
      assert (a + b)[..|a + b| - 1] == a + b[..|b| - 1];
    }
  }

  /** How many characters of a text are of a class. */
  ghost function Count(cls: Classifier, s: string, k: CharClass): nat {
    if s == [] then 0 else Count(cls, s[..|s| - 1], k) + if cls(s[|s| - 1]) == k then 1 else 0
  }

  /** Hundredths of a token: 23 for a letter, 136 for a digit, 55 for a space and 52 for anything else. */
  lemma {:induction false} WeightExactly(cls: Classifier, s: string)
    ensures Weight(cls, s) ==
            23 * Count(cls, s, Letter) + 136 * Count(cls, s, Digit) + 55 * Count(cls, s, Space)
                + 52 * Count(cls, s, Other)
  {
    if s != [] {
      WeightExactly(cls, s[..|s| - 1]);
    }
  }

  /** What the estimate is: the weight, rounded down to tokens, and one. */
  function TokenCount(cls: Classifier, s: string): nat {
    Weight(cls, s) / 100 + 1
  }

  lemma TokenCountMonotone(cls: Classifier, a: string, b: string)
    requires Weight(cls, a) <= Weight(cls, b)
    ensures TokenCount(cls, a) <= TokenCount(cls, b)
  {
  }

  method EstimateTokens(cls: Classifier, s: string) returns (n: nat)
    ensures n == TokenCount(cls, s)
    ensures n == 1 + (23 * Count(cls, s, Letter) + 136 * Count(cls, s, Digit)
                      + 55 * Count(cls, s, Space) + 52 * Count(cls, s, Other)) / 100
  {
    var letters, digits, spaces, other := 0, 0, 0, 0;
    for i := 0 to |s|
      invariant letters >= 0 && digits >= 0 && spaces >= 0 && other >= 0
      invariant 23 * letters + 136 * digits + 52 * other + 55 * spaces == Weight(cls, s[..i])
    {
      assert s[..i + 1][..i] == s[..i];
      match cls(s[i])
      case Letter => letters := letters + 1;
      case Digit => digits := digits + 1;
      case Space => spaces := spaces + 1;
      case Other => other := other + 1;
    }
    assert s[..|s|] == s;
    WeightExactly(cls, s);
    n := (23 * letters + 136 * digits + 52 * other + 55 * spaces) / 100 + 1;
  }

  // ---- Numbers -------------------------------------------------------------

  function DigitChar(d: nat): char
    requires d < 10
  {
    ['0', '1', '2', '3', '4', '5', '6', '7', '8', '9'][d]
  }

  /** `%d` of a number that is not negative. */
  function Decimal(n: nat): (s: string)
    ensures |s| > 0
  {
    if n < 10 then [DigitChar(n)] else Decimal(n / 10) + [DigitChar(n % 10)]
  }

  function Signed(n: int): (s: string)
    ensures |s| > 0
  {
    if n < 0 then "-" + Decimal(-n) else Decimal(n)
  }

  /** The number that digits spell. */
  function Value(s: string): nat
    requires forall i :: 0 <= i < |s| ==> '0' <= s[i] <= '9'
  {
    if s == [] then 0 else 10 * Value(s[..|s| - 1]) + (s[|s| - 1] as int - '0' as int)
  }

  lemma DigitIs(d: nat)
    requires d < 10
    ensures DigitChar(d) as int == '0' as int + d
  {
  }

  /** A number printed is digits that spell it, without a leading zero. */
  lemma {:induction false} DecimalExactly(n: nat)
    ensures var s := Decimal(n);
            (forall i :: 0 <= i < |s| ==> '0' <= s[i] <= '9') && Value(s) == n && (s[0] == '0' ==> s == "0")
  {
    DigitIs(n % 10);
    if n >= 10 {
      DecimalExactly(n / 10);
      var front := Decimal(n / 10);
      assert Decimal(n)[..|Decimal(n)| - 1] == front && front != "0";
    } else {
      assert Decimal(n)[..0] == [];
    }
  }

  lemma {:induction false} DecimalWeight(cls: Classifier, n: nat)
    requires AsciiOk(cls)
    ensures Weight(cls, Decimal(n)) == 136 * |Decimal(n)|
  {
    if n < 10 {
      assert Decimal(n)[..0] == [];
    } else {
      DecimalWeight(cls, n / 10);
      assert Decimal(n)[..|Decimal(n)| - 1] == Decimal(n / 10);
    }
  }

  /** One more has as many digits, or one more digit. */
  lemma {:induction false} DecimalStep(n: nat)
    ensures |Decimal(n)| <= |Decimal(n + 1)| <= |Decimal(n)| + 1
  {
    if n >= 10 {
      DecimalStep(n / 10);
      assert (n + 1) / 10 == n / 10 || (n + 1) / 10 == n / 10 + 1;
    }
  }

  lemma DecimalCosts(cls: Classifier, n: nat)
    requires AsciiOk(cls)
    ensures Weight(cls, Decimal(n)) >= 136
  {
    DecimalWeight(cls, n);
    assert |Decimal(n)| >= 1;
  }

  lemma WeightTail(cls: Classifier, a: string, b: string)
    ensures Weight(cls, a + b) >= Weight(cls, b)
  {
    WeightConcat(cls, a, b);
  }

  lemma SignedWeight(cls: Classifier, n: int)
    requires AsciiOk(cls)
    ensures Weight(cls, Signed(n)) >= 136
  {
    var m := if n < 0 then -n else n;
    DecimalCosts(cls, m);
    WeightTail(cls, "-", Decimal(m));
  }

  function PluralWord(one: string, many: string, n: int): string {
    if n == 1 then one else many
  }
}
