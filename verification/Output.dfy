/** A tunnel's output (tunnels.go): split into lines as it is read, in whatever chunks it comes, and the last
    lines kept. */
module Output {
  import opened Sequences

  const OUTPUT_LINES := 200

  predicate IsBreak(c: char) {
    c == '\r' || c == '\n'
  }

  // ---- The batch split -----------------------------------------------------

  /** A text cut at every break. */
  function Pieces(s: string): (ps: seq<string>)
    ensures ps != []
  {
    if s == [] then [[]]
    else
      var ps, c := Pieces(s[..|s| - 1]), s[|s| - 1];
      if IsBreak(c) then ps + [[]] else ps[..|ps| - 1] + [ps[|ps| - 1] + [c]]
  }

  function Breaks(s: string): string {
    Filter(s, IsBreak)
  }

  /** Pieces and the breaks between them, put together again. */
  function Rejoin(ps: seq<string>, breaks: string): string
    requires |ps| == |breaks| + 1
  {
    if breaks == [] then ps[0]
    else Rejoin(ps[..|ps| - 1], breaks[..|breaks| - 1]) + [breaks[|breaks| - 1]] + ps[|ps| - 1]
  }

  lemma {:induction false} PiecesUnbroken(s: string)
    ensures forall i, k :: 0 <= i < |Pieces(s)| && 0 <= k < |Pieces(s)[i]| ==> !IsBreak(Pieces(s)[i][k])
  {
    if s != [] {
      PiecesUnbroken(s[..|s| - 1]);
    }
  }

  /** The pieces hold no break, and lose no character. */
  lemma {:induction false} PiecesRejoin(s: string)
    ensures |Pieces(s)| == |Breaks(s)| + 1 && Rejoin(Pieces(s), Breaks(s)) == s
    ensures forall i, k :: 0 <= i < |Pieces(s)| && 0 <= k < |Pieces(s)[i]| ==> !IsBreak(Pieces(s)[i][k])
  {
    PiecesUnbroken(s);
    if s != [] {
      var front, c := s[..|s| - 1], s[|s| - 1];
      PiecesRejoin(front);
      assert s == front + [c];
      if IsBreak(c) {
        RejoinNext(Pieces(front), Breaks(front), c);
      } else {
        RejoinLast(Pieces(front), Breaks(front), c);
      }
    }
  }

  lemma RejoinNext(ps: seq<string>, breaks: string, c: char)
    requires |ps| == |breaks| + 1
    ensures Rejoin(ps + [[]], breaks + [c]) == Rejoin(ps, breaks) + [c]
  {
    assert (ps + [[]])[..|ps|] == ps && (breaks + [c])[..|breaks|] == breaks;
  }

  lemma RejoinLast(ps: seq<string>, breaks: string, c: char)
    requires |ps| == |breaks| + 1
    ensures Rejoin(ps[..|ps| - 1] + [ps[|ps| - 1] + [c]], breaks) == Rejoin(ps, breaks) + [c]
  {
    var qs := ps[..|ps| - 1] + [ps[|ps| - 1] + [c]];
    if breaks != [] {
      assert qs[..|qs| - 1] == ps[..|ps| - 1];
    }
  }

  function TrimRight(s: string): string {
    if s != [] && (s[|s| - 1] == ' ' || s[|s| - 1] == '\t') then TrimRight(s[..|s| - 1]) else s
  }

  function LineOf(piece: string): seq<string> {
    if TrimRight(piece) == [] then [] else [TrimRight(piece)]
  }

  /** The lines a list of finished pieces logs. */
  function LinesOf(ps: seq<string>): seq<string> {
    if ps == [] then [] else LinesOf(ps[..|ps| - 1]) + LineOf(ps[|ps| - 1])
  }

  /** Every line of a whole output: the finished ones trimmed, and what follows the last break as it is,
      unless it is blank. */
  function Batch(text: string, blank: string -> bool): seq<string> {
    var ps := Pieces(text);
    var last := ps[|ps| - 1];
    LinesOf(ps[..|ps| - 1]) + if blank(last) then [] else [last]
  }

  // ---- Splitting as it comes -----------------------------------------------

  datatype Scan = Scan(lines: seq<string>, rest: string)

  /** The lines finished so far, and what follows the last break. */
  function Scanned(s: string): Scan {
    if s == [] then Scan([], "")
    else
      var before, c := Scanned(s[..|s| - 1]), s[|s| - 1];
      if IsBreak(c) then Scan(before.lines + LineOf(before.rest), "") else Scan(before.lines, before.rest + [c])
  }

  lemma {:induction false} ScannedIsBatch(s: string)
    ensures Scanned(s) == Scan(LinesOf(Pieces(s)[..|Pieces(s)| - 1]), Pieces(s)[|Pieces(s)| - 1])
  {
    if s != [] {
      var front, c := s[..|s| - 1], s[|s| - 1];
      ScannedIsBatch(front);
      var ps := Pieces(front);
      assert (ps + [[]])[..|ps|] == ps;
    }
  }

  /** The lines when the output ends here. */
  function Ended(scan: Scan, blank: string -> bool): seq<string> {
    if blank(scan.rest) then scan.lines else scan.lines + [scan.rest]
  }

  lemma EndedIsBatch(text: string, blank: string -> bool)
    ensures Ended(Scanned(text), blank) == Batch(text, blank)
  {
    ScannedIsBatch(text);
  }

  lemma ScannedStep(s: string, c: char)
    ensures Scanned(s + [c]) == var before := Scanned(s);
                                if IsBreak(c) then Scan(before.lines + LineOf(before.rest), "")
                                    else Scan(before.lines, before.rest + [c])
  {
    assert (s + [c])[..|s|] == s;
  }

  predicate NoBreak(s: string) {
    forall k :: 0 <= k < |s| ==> !IsBreak(s[k])
  }

  lemma {:induction false} ScannedUnbroken(s: string)
    requires NoBreak(s)
    ensures Scanned(s) == Scan([], s)
  {
    if s != [] {
      ScannedUnbroken(s[..|s| - 1]);
      assert s[..|s| - 1] + [s[|s| - 1]] == s;
    }
  }

  lemma {:induction false} RestUnbroken(s: string)
    ensures NoBreak(Scanned(s).rest)
  {
    if s != [] {
      RestUnbroken(s[..|s| - 1]);
    }
  }

  function Onto(lines: seq<string>, more: Scan): Scan {
    Scan(lines + more.lines, more.rest)
  }

  /** Nothing depends on where a chunk ends: going on from what is left of one text gives what splitting
      both at once gives. */
  lemma {:induction false} SplitResumes(text: string, chunk: string)
    ensures Scanned(text + chunk) == Onto(Scanned(text).lines, Scanned(Scanned(text).rest + chunk))
  {
    var rest := Scanned(text).rest;
    if chunk == [] {
      assert text + chunk == text && rest + chunk == rest;
      RestUnbroken(text);
      ScannedUnbroken(rest);
    } else {
      var front, c := chunk[..|chunk| - 1], chunk[|chunk| - 1];
      SplitResumes(text, front);
      assert text + chunk == (text + front) + [c] && rest + chunk == (rest + front) + [c];
      ScannedStep(text + front, c);
      ScannedStep(rest + front, c);
    }
  }

  lemma SplitAfterLine(line: string, c: char, tail: string)
    requires NoBreak(line) && IsBreak(c)
    ensures Scanned((line + [c]) + tail) == Onto(LineOf(line), Scanned(tail))
  {
    ScannedUnbroken(line);
    ScannedStep(line, c);
    SplitResumes(line + [c], tail);
    assert "" + tail == tail;
    assert [] + LineOf(line) == LineOf(line);
  }

  /** The first line of a text. */
  lemma SplitFirst(s: string, i: nat)
    requires i < |s| && IsBreak(s[i]) && NoBreak(s[..i])
    ensures Scanned(s) == Onto(LineOf(s[..i]), Scanned(s[i + 1..]))
  {
    var whole := (s[..i] + [s[i]]) + s[i + 1..];
    assert whole == s;
    SplitAfterLine(s[..i], s[i], s[i + 1..]);
  }

  method IndexBreak(s: string) returns (i: int)
    ensures i < 0 ==> NoBreak(s)
    ensures i >= 0 ==> i < |s| && IsBreak(s[i]) && NoBreak(s[..i])
  {
    for j := 0 to |s|
      invariant forall k :: 0 <= k < j ==> !IsBreak(s[k])
    {
      if IsBreak(s[j]) {
        return j;
      }
    }
    i := -1;
  }

  function LastLines(lines: seq<string>): seq<string> {
    if |lines| > OUTPUT_LINES then lines[|lines| - OUTPUT_LINES..] else lines
  }

  function Concat(chunks: seq<string>): string {
    if chunks == [] then [] else Concat(chunks[..|chunks| - 1]) + chunks[|chunks| - 1]
  }

  lemma ConcatStep(chunks: seq<string>, n: nat)
    requires n < |chunks|
    ensures Concat(chunks[..n + 1]) == Concat(chunks[..n]) + chunks[n]
  {
    assert chunks[..n + 1][..n] == chunks[..n];
  }

  // ---- Told by the characters ----------------------------------------------

  predicate Blank(c: char) {
    c as int == 32 || c as int == 9
  }

  /** t is s without the spaces and tabs at its end. */
  ghost predicate Stripped(s: string, t: string) {
    && |t| <= |s| && s[..|t|] == t && (t != "" ==> !Blank(t[|t| - 1]))
    && forall k :: |t| <= k < |s| ==> Blank(s[k])
  }

  lemma {:induction false} TrimsExactly(s: string)
    ensures Stripped(s, TrimRight(s))
  {
    if s != [] && (s[|s| - 1] == ' ' || s[|s| - 1] == '\t') {
      TrimsExactly(s[..|s| - 1]);
    }
  }

  /** A text is cut at every line feed and carriage return, and nowhere else. */
  lemma {:induction false} BreaksExactly(s: string)
    ensures forall k :: 0 <= k < |Breaks(s)| ==> Breaks(s)[k] as int == 10 || Breaks(s)[k] as int == 13
    ensures forall i, k :: 0 <= i < |Pieces(s)| && 0 <= k < |Pieces(s)[i]| ==>
              Pieces(s)[i][k] as int != 10 && Pieces(s)[i][k] as int != 13
  {
    PiecesRejoin(s);
    forall k | 0 <= k < |Breaks(s)| ensures IsBreak(Breaks(s)[k]) {
      FilterMembers(s, IsBreak, Breaks(s)[k]);
    }
  }

  /** The lines logged are those pieces, stripped, that are more than blanks, in their order. */
  ghost predicate LinesFrom(ps: seq<string>, lines: seq<string>, at: seq<nat>) {
    && Ascending(at) && |at| == |lines|
    && (forall k :: 0 <= k < |at| ==> at[k] < |ps| && lines[k] != "" && Stripped(ps[at[k]], lines[k]))
    && (forall i: nat :: i < |ps| && i !in at ==> Stripped(ps[i], ""))
  }

  lemma {:induction false} LinesExactly(ps: seq<string>) returns (at: seq<nat>)
    ensures LinesFrom(ps, LinesOf(ps), at)
  {
    at := [];
    if ps != [] {
      var n := |ps| - 1;
      at := LinesExactly(ps[..n]);
      TrimsExactly(ps[n]);
      at := OnePieceMore(ps, LinesOf(ps[..n]), at);
    }
  }

  lemma OnePieceMore(ps: seq<string>, lines: seq<string>, at: seq<nat>) returns (more: seq<nat>)
    requires ps != [] && LinesFrom(ps[..|ps| - 1], lines, at)
    requires Stripped(ps[|ps| - 1], TrimRight(ps[|ps| - 1]))
    ensures LinesFrom(ps, lines + LineOf(ps[|ps| - 1]), more)
  {
    var n := |ps| - 1;
    more := if TrimRight(ps[n]) == "" then at else at + [n];
    assert forall i: nat :: i < n ==> ps[..n][i] == ps[i];
    assert forall i: nat :: i in more <==> i in at || (i == n && TrimRight(ps[n]) != "");
  }

  /** Of all lines ever logged, the last two hundred are kept. */
  lemma LastLinesExactly(lines: seq<string>)
    ensures var kept := LastLines(lines);
            && (|lines| <= 200 ==> kept == lines)
            && (|lines| > 200 ==> |kept| == 200 && exists dropped :: lines == dropped + kept)
  {
    if |lines| > 200 {
      assert lines == lines[..|lines| - 200] + LastLines(lines);
    }
  }

  class TunnelOutput {
    var out: seq<string>
    ghost var logged: seq<string>

    /** What is kept is the end of what was ever logged. */
    ghost predicate Valid()
      reads this
    {
      out == LastLines(logged)
    }

    constructor ()
      ensures Valid() && logged == []
    {
      out, logged := [], [];
    }

    method Log(line: string)
      requires Valid()
      modifies this
      ensures Valid() && logged == old(logged) + [line]
    {
      out := out + [line];
      logged := logged + [line];
      var n := |out| - OUTPUT_LINES;
      if n > 0 {
        out := out[n..];
      }
    }

    /** The lines a chunk finishes are logged; what follows the last break is returned. */
    method Feed(before: string, chunk: string) returns (partial: string)
      requires Valid()
      modifies this
      ensures Valid() && logged == old(logged) + Scanned(before + chunk).lines
          && partial == Scanned(before + chunk).rest
    {
      partial := before + chunk;
      while true
        invariant Valid()
        invariant Onto(logged, Scanned(partial)) == Onto(old(logged), Scanned(before + chunk))
        decreases |partial|
      {
        var i := IndexBreak(partial);
        if i < 0 {
          ScannedUnbroken(partial);
          return;
        }
        SplitFirst(partial, i);
        var line := TrimRight(partial[..i]);
        if line != "" {
          Log(line);
        }
        partial := partial[i + 1..];
      }
    }

    method ReadChunks(chunks: seq<string>) returns (partial: string)
      requires Valid()
      modifies this
      ensures Valid() && Onto(old(logged), Scanned(Concat(chunks))) == Scan(logged, partial)
    {
      partial := "";
      for n := 0 to |chunks|
        invariant Valid()
        invariant Onto(old(logged), Scanned(Concat(chunks[..n]))) == Scan(logged, partial)
      {
        SplitResumes(Concat(chunks[..n]), chunks[n]);
        ConcatStep(chunks, n);
        partial := Feed(partial, chunks[n]);
      }
      assert chunks[..|chunks|] == chunks;
    }

    /** The whole output of a process, read in any chunks: exactly the lines of the batch split are logged, so
        the chunks make no difference. */
    method ReadAll(chunks: seq<string>, blank: string -> bool)
      requires Valid()
      modifies this
      ensures Valid() && logged == old(logged) + Batch(Concat(chunks), blank)
    {
      var partial := ReadChunks(chunks);
      EndedIsBatch(Concat(chunks), blank);
      ghost var scan := Scanned(Concat(chunks));
      assert old(logged) + Ended(scan, blank) == if blank(scan.rest) then old(logged) + scan.lines
          else old(logged) + scan.lines + [scan.rest];
      if !blank(partial) {
        Log(partial);
      }
    }
  }
}
