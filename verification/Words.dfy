/** Finding a name in a message (linked.go): as a whole name, not inside a longer one. */
module Words {

  predicate NameByte(b: char) {
    b == '-' || b == '.' || b == '_' || 'a' <= b <= 'z' || 'A' <= b <= 'Z' || '0' <= b <= '9'
  }

  predicate OccursAt(s: string, w: string, j: nat) {
    j + |w| <= |s| && s[j..j + |w|] == w
  }

  /** A name starts where no name byte precedes it, and ends at the end, before a byte that is none, or before a
      dot that ends a sentence. */
  predicate WholeAt(s: string, w: string, j: nat)
    requires j + |w| <= |s|
  {
    var end := j + |w|;
    && (j == 0 || !NameByte(s[j - 1]))
    && (end == |s| || !NameByte(s[end]) || (s[end] == '.' && (end + 1 == |s| || !NameByte(s[end + 1]))))
  }

  ghost predicate Mentions(s: string, w: string) {
    w != "" && exists j: nat :: OccursAt(s, w, j) && WholeAt(s, w, j)
  }

  // ---- What counts as a mention --------------------------------------------

  /** In ASCII: digits, capital and small letters, the hyphen, the dot and the underscore. */
  ghost predicate OfNames(w: string) {
    forall i :: 0 <= i < |w| ==>
      var c := w[i] as int;
      48 <= c <= 57 || 65 <= c <= 90 || 97 <= c <= 122 || c == 45 || c == 46 || c == 95
  }

  lemma NameByteExactly(b: char)
    ensures NameByte(b) <==> OfNames([b])
  {
    assert [b][0] == b;
  }

  lemma LastOfNames(w: string, i: nat)
    requires OfNames(w) && i < |w|
    ensures NameByte(w[i])
  {
    NameByteExactly(w[i]);
  }

  /** A name is not mentioned by a longer one that ends with it, */
  lemma NotInLongerBefore(w: string, b: char)
    requires w != "" && OfNames([b] + w) && w[|w| - 1] != '.'
    ensures !Mentions([b] + w, w)
  {
    var s := [b] + w;
    LastOfNames(s, 0);
    LastOfNames(s, |w|);
  }

  /** nor by one that goes on after it, unless with the dot that ends a sentence; */
  lemma NotInLongerAfter(w: string, b: char)
    requires w != "" && OfNames(w + [b]) && b != '.'
    ensures !Mentions(w + [b], w)
  {
    var s := w + [b];
    LastOfNames(s, 0);
    LastOfNames(s, |w|);
  }

  /** it is by a text around it that does not make it longer, and at the end of a sentence. */
  lemma MentionedBetween(before: string, w: string, after: string)
    requires w != "" && (before == "" || !OfNames([before[|before| - 1]]))
    requires after == "" || !OfNames([after[0]]) || (after[0] == '.' && (|after| == 1 || !OfNames([after[1]])))
    ensures Mentions(before + w + after, w)
  {
    var s, j := before + w + after, |before|;
    assert s[j..j + |w|] == w;
    if before != "" {
      NameByteExactly(before[j - 1]);
    }
    if after != "" {
      NameByteExactly(after[0]);
      assert s[j + |w|] == after[0];
    }
    if |after| > 1 {
      NameByteExactly(after[1]);
      assert s[j + |w| + 1] == after[1];
    }
    assert OccursAt(s, w, j) && WholeAt(s, w, j);
  }

  /** `strings.Index`, from a position on. */
  method IndexFrom(s: string, w: string, from: nat) returns (j: int)
    requires from <= |s|
    ensures j < 0 ==> forall k: nat :: from <= k ==> !OccursAt(s, w, k)
    ensures j >= 0 ==> from <= j && OccursAt(s, w, j) && forall k: nat :: from <= k < j ==> !OccursAt(s, w, k)
  {
    j := from;
    while j + |w| <= |s|
      invariant from <= j
      invariant forall k: nat :: from <= k < j ==> !OccursAt(s, w, k)
    {
      if s[j..j + |w|] == w {
        return;
      }
      j := j + 1;
    }
    j := -1;
  }

  /** Overlapping occurrences are not skipped: the answer is yes exactly when some occurrence is a whole name. */
  method ContainsWord(s: string, w: string) returns (found: bool)
    ensures found <==> Mentions(s, w)
  {
    if w == "" {
      return false;
    }
    var i := 0;
    while true
      invariant 0 <= i <= |s|
      invariant forall k: nat :: k < i && OccursAt(s, w, k) ==> !WholeAt(s, w, k)
      decreases |s| - i
    {
      var j := IndexFrom(s, w, i);
      if j < 0 {
        return false;
      }
      var end := j + |w|;
      var before := j == 0 || !NameByte(s[j - 1]);
      var after := end == |s| || !NameByte(s[end]) || (s[end] == '.' && (end + 1 == |s| || !NameByte(s[end + 1])));
      if before && after {
        return true;
      }
      i := j + 1;
    }
  }
}
