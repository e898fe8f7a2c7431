/** The linked-evidence block of linked.go: trimming that loses no line unannounced and keeps the most that
    fits. */
module Linked {
  import opened Rows
  import opened Sequences
  import opened Tokens

  datatype LinkedItem = LinkedItem(rule: string, kind: string, ns: string, name: string, facts: string,
      lines: seq<string>)

  const HEADING := "\nLinked evidence (followed from the evidence above):\n"

  function LineRow(line: string): string {
    "  - " + line + "\n"
  }

  function ItemHead(it: LinkedItem): string {
    "- " + it.kind + " " + it.name + ": " + it.facts + "\n"
  }

  function ItemRows(it: LinkedItem): string {
    ItemHead(it) + Text(Map(LineRow, it.lines))
  }

  function TrimNote(trimmed: int): string {
    if trimmed <= 0 then "" else "(" + Decimal(trimmed) + " linked evidence " + PluralWord("line", "lines", trimmed)
                                 + " trimmed to fit the model's context)\n"
  }

  function Block(items: seq<LinkedItem>, trimmed: int): string {
    HEADING + Text(Map(ItemRows, items)) + TrimNote(trimmed)
  }

  /** What an object takes: its own line and the lines under it. */
  function Size(it: LinkedItem): int {
    1 + |it.lines|
  }

  function LineCount(items: seq<LinkedItem>): int {
    SumBy(items, Size)
  }

  method WriteLinked(items: seq<LinkedItem>, trimmed: int) returns (sb: string)
    ensures sb == Block(items, trimmed)
  {
    var rows := "";
    for i := 0 to |items|
      invariant rows == Text(Map(ItemRows, items[..i]))
    {
      MapStep(ItemRows, items, i);
      var lines := WriteRows(LineRow, items[i].lines);
      rows := rows + (ItemHead(items[i]) + lines);
    }
    assert items[..|items|] == items;
    sb := HEADING + rows + TrimNote(trimmed);
  }

  // ---- What may be kept ----------------------------------------------------

  function Shortened(it: LinkedItem, n: nat): LinkedItem
    requires n <= |it.lines|
  {
    it.(lines := it.lines[..n])
  }

  /** A cut of the items: some of the first objects whole, or part of the first one alone. */
  predicate IsCut(items: seq<LinkedItem>, kept: seq<LinkedItem>) {
    && 1 <= |kept| <= |items|
    && (|| kept == items[..|kept|]
        || (|kept| == 1 && |kept[0].lines| <= |items[0].lines| && kept[0] == Shortened(items[0], |kept[0].lines|)))
  }

  lemma LineCountOne(it: LinkedItem)
    ensures LineCount([it]) == Size(it)
  {
    SumByAppend([], Size, it);
    assert [] + [it] == [it];
  }

  lemma {:induction false} LineCountPrefix(items: seq<LinkedItem>, m: nat, n: nat)
    requires m <= n <= |items|
    ensures LineCount(items[..m]) + (n - m) <= LineCount(items[..n])
    decreases n
  {
    if m < n {
      SumByStep(items, Size, n - 1);
      LineCountPrefix(items, m, n - 1);
    }
  }

  lemma CutCount(items: seq<LinkedItem>, kept: seq<LinkedItem>)
    requires IsCut(items, kept)
    ensures |kept| <= LineCount(kept) <= LineCount(items[..|kept|]) <= LineCount(items)
  {
    LineCountPrefix(items, |kept|, |items|);
    assert items[..|items|] == items;
    if kept == items[..|kept|] {
      LineCountPrefix(items, 0, |kept|);
    } else {
      LineCountOne(kept[0]);
      LineCountOne(items[0]);
      assert kept == [kept[0]] && items[..1] == [items[0]];
    }
  }

  lemma CutOne(items: seq<LinkedItem>, kept: seq<LinkedItem>)
    requires IsCut(items, kept) && |kept| == 1
    ensures |kept[0].lines| <= |items[0].lines| && kept[0] == Shortened(items[0], |kept[0].lines|)
    ensures LineCount(kept) == Size(kept[0])
  {
    assert kept == [kept[0]] && items[0].lines[..|items[0].lines|] == items[0].lines;
    LineCountOne(kept[0]);
  }

  /** There is one cut of each size, so "the largest cut" names one. */
  lemma CutUnique(items: seq<LinkedItem>, a: seq<LinkedItem>, b: seq<LinkedItem>)
    requires IsCut(items, a) && IsCut(items, b) && LineCount(a) == LineCount(b)
    ensures a == b
  {
    if |a| < |b| {
      CutTooSmall(items, a, b);
    } else if |b| < |a| {
      CutTooSmall(items, b, a);
    } else if |a| == 1 {
      CutOne(items, a);
      CutOne(items, b);
      assert a == [a[0]] && b == [b[0]];
    }
  }

  /** Cuts that keep fewer objects keep fewer lines. */
  lemma CutTooSmall(items: seq<LinkedItem>, a: seq<LinkedItem>, b: seq<LinkedItem>)
    requires IsCut(items, a) && IsCut(items, b) && |a| < |b|
    ensures LineCount(a) < LineCount(b)
  {
    CutCount(items, a);
    LineCountPrefix(items, |a|, |b|);
    assert b == items[..|b|];
  }

  // ---- The loop ------------------------------------------------------------

  /** No cut with more lines than n fits. */
  ghost predicate NoneAbove(items: seq<LinkedItem>, fits: seq<LinkedItem> -> bool, n: int) {
    forall cut {:trigger IsCut(items, cut)} :: IsCut(items, cut) && LineCount(cut) > n ==> !fits(cut)
  }

  function DropObject(kept: seq<LinkedItem>): seq<LinkedItem>
    requires |kept| > 1
  {
    kept[..|kept| - 1]
  }

  function DropLine(kept: seq<LinkedItem>): seq<LinkedItem>
    requires |kept| == 1 && |kept[0].lines| > 0
  {
    [Shortened(kept[0], |kept[0].lines| - 1)]
  }

  lemma DropObjectCut(items: seq<LinkedItem>, kept: seq<LinkedItem>)
    requires IsCut(items, kept) && |kept| > 1
    ensures IsCut(items, DropObject(kept)) && LineCount(DropObject(kept)) == LineCount(kept) - Size(kept[|kept| - 1])
  {
  }

  /** Between a cut of whole objects and the one with an object less there is no other. */
  lemma DropObjectNext(items: seq<LinkedItem>, kept: seq<LinkedItem>, cut: seq<LinkedItem>)
    requires IsCut(items, kept) && |kept| > 1 && IsCut(items, cut)
    requires LineCount(cut) > LineCount(DropObject(kept))
    ensures cut == kept || LineCount(cut) > LineCount(kept)
  {
    DropObjectCut(items, kept);
    assert DropObject(kept) == items[..|kept| - 1];
    if |cut| < |kept| {
      CutCount(items, cut);
      LineCountPrefix(items, |cut|, |kept| - 1);
    } else if |cut| > |kept| {
      CutTooSmall(items, kept, cut);
    }
  }

  lemma ObjectDropped(items: seq<LinkedItem>, fits: seq<LinkedItem> -> bool, kept: seq<LinkedItem>)
    requires IsCut(items, kept) && |kept| > 1 && NoneAbove(items, fits, LineCount(kept)) && !fits(kept)
    ensures NoneAbove(items, fits, LineCount(DropObject(kept)))
  {
    forall cut | IsCut(items, cut) && LineCount(cut) > LineCount(DropObject(kept)) ensures !fits(cut) {
      DropObjectNext(items, kept, cut);
    }
  }

  lemma LineDropped(items: seq<LinkedItem>, fits: seq<LinkedItem> -> bool, kept: seq<LinkedItem>)
    requires IsCut(items, kept) && |kept| == 1 && |kept[0].lines| > 0
    requires NoneAbove(items, fits, LineCount(kept)) && !fits(kept)
    ensures IsCut(items, DropLine(kept)) && LineCount(DropLine(kept)) == LineCount(kept) - 1
    ensures NoneAbove(items, fits, LineCount(kept) - 1)
  {
    assert kept == [kept[0]];
    LineCountOne(kept[0]);
    LineCountOne(DropLine(kept)[0]);
    CutOne(items, kept);
    forall cut | IsCut(items, cut) && LineCount(cut) > LineCount(kept) - 1 ensures !fits(cut) {
      if LineCount(cut) == LineCount(kept) {
        CutUnique(items, cut, kept);
      }
    }
  }

  lemma NothingFits(items: seq<LinkedItem>, fits: seq<LinkedItem> -> bool, kept: seq<LinkedItem>)
    requires IsCut(items, kept) && |kept| == 1 && kept[0].lines == []
    requires NoneAbove(items, fits, LineCount(kept)) && !fits(kept)
    ensures LineCount(kept) == 1 && NoneAbove(items, fits, 0)
  {
    assert kept == [kept[0]];
    LineCountOne(kept[0]);
    forall cut | IsCut(items, cut) && LineCount(cut) > 0 ensures !fits(cut) {
      if LineCount(cut) == 1 {
        CutUnique(items, cut, kept);
      }
    }
  }

  /** The loop's test of a rendered block. */
  function Within(cls: Classifier, budget: int): string -> bool {
    text => budget <= 0 || TokenCount(cls, text) <= budget
  }

  /** Whether a cut, with its note, passes the test. */
  function FitsAt(items: seq<LinkedItem>, within: string -> bool): seq<LinkedItem> -> bool {
    Passes(items, Block, within)
  }

  function Passes(items: seq<LinkedItem>, block: (seq<LinkedItem>, int) -> string,
                  within: string -> bool): seq<LinkedItem> -> bool {
    kept => within(block(kept, LineCount(items) - LineCount(kept)))
  }

  /** What a budget keeps: of all the cuts that fit, the one with most lines; nothing when none fits. */
  ghost predicate IsKept(items: seq<LinkedItem>, fits: seq<LinkedItem> -> bool, kept: seq<LinkedItem>) {
    && NoneAbove(items, fits, LineCount(kept))
    && (kept != [] ==> IsCut(items, kept) && fits(kept))
  }

  /** One attempt: the block with its note, and whether it passes. */
  method Attempt(ghost items: seq<LinkedItem>, within: string -> bool, kept: seq<LinkedItem>, trimmed: int)
    returns (text: string, ok: bool)
    requires trimmed == LineCount(items) - LineCount(kept)
    ensures text == Block(kept, trimmed) && ok == FitsAt(items, within)(kept)
  {
    text := WriteLinked(kept, trimmed);
    ok := within(text);
  }

  /** Where the loop stands: what is kept is a cut, the trimmed lines are the others, and no larger cut fits. */
  ghost predicate TrimmedTo(items: seq<LinkedItem>, fits: seq<LinkedItem> -> bool, kept: seq<LinkedItem>,
                            trimmed: int) {
    IsCut(items, kept) && trimmed == LineCount(items) - LineCount(kept) && NoneAbove(items, fits, LineCount(kept))
  }

  predicate CanDrop(kept: seq<LinkedItem>) {
    |kept| > 1 || (|kept| == 1 && kept[0].lines != [])
  }

  /** The last object goes, or the last line of the only one. */
  function Dropped(kept: seq<LinkedItem>): seq<LinkedItem>
    requires CanDrop(kept)
  {
    if |kept| > 1 then DropObject(kept) else DropLine(kept)
  }

  function DroppedLines(kept: seq<LinkedItem>): int
    requires CanDrop(kept)
  {
    if |kept| > 1 then 1 + |kept[|kept| - 1].lines| else 1
  }

  lemma DroppedTrims(items: seq<LinkedItem>, fits: seq<LinkedItem> -> bool, kept: seq<LinkedItem>, trimmed: int)
    requires TrimmedTo(items, fits, kept, trimmed) && CanDrop(kept) && !fits(kept)
    ensures TrimmedTo(items, fits, Dropped(kept), trimmed + DroppedLines(kept))
  {
    if |kept| > 1 {
      DropObjectCut(items, kept);
      ObjectDropped(items, fits, kept);
    } else {
      LineDropped(items, fits, kept);
    }
  }

  method Drop(kept: array<LinkedItem>, n: nat) returns (m: nat, lines: int)
    requires n <= kept.Length && CanDrop(kept[..n])
    modifies kept
    ensures 0 < m <= n && kept[..m] == Dropped(old(kept[..n])) && lines == DroppedLines(old(kept[..n]))
    ensures m < n || |kept[m - 1].lines| < old(|kept[n - 1].lines|)
  {
    var last := kept[n - 1];
    if n > 1 {
      return n - 1, 1 + |last.lines|;
    }
    kept[0] := Shortened(last, |last.lines| - 1);
    return 1, 1;
  }

  lemma NothingKept(items: seq<LinkedItem>, fits: seq<LinkedItem> -> bool, kept: seq<LinkedItem>, trimmed: int)
    requires TrimmedTo(items, fits, kept, trimmed) && |kept| == 1 && kept[0].lines == [] && !fits(kept)
    ensures IsKept(items, fits, []) && trimmed + 1 == LineCount(items)
  {
    NothingFits(items, fits, kept);
  }

  /** The loop, in place: the items to keep are the first n of the buffer. */
  method TrimToFit(kept: array<LinkedItem>, within: string -> bool) returns (text: string, n: nat, trimmed: int)
    requires kept.Length > 0
    modifies kept
    ensures n <= kept.Length
    ensures trimmed == LineCount(old(kept[..])) - LineCount(kept[..n])
    ensures IsKept(old(kept[..]), FitsAt(old(kept[..]), within), kept[..n])
    ensures text == if n == 0 then "" else Block(kept[..n], trimmed)
  {
    ghost var items := kept[..];
    ghost var fits := FitsAt(items, within);
    n, trimmed := kept.Length, 0;
    AllKept(items, fits);
    assert kept[..n] == items;
    while true
      invariant 0 < n <= kept.Length
      invariant TrimmedTo(items, fits, kept[..n], trimmed)
      decreases n, |kept[n - 1].lines|
    {
      var ok;
      text, ok := Attempt(items, within, kept[..n], trimmed);
      if ok {
        return;
      }
      if n == 1 && |kept[0].lines| == 0 {
        NothingKept(items, fits, kept[..n], trimmed);
        return "", 0, trimmed + 1;
      }
      DroppedTrims(items, fits, kept[..n], trimmed);
      var lines;
      n, lines := Drop(kept, n);
      trimmed := trimmed + lines;
    }
  }

  lemma AllKept(items: seq<LinkedItem>, fits: seq<LinkedItem> -> bool)
    requires items != []
    ensures IsCut(items, items) && NoneAbove(items, fits, LineCount(items))
  {
    forall cut | IsCut(items, cut) ensures LineCount(cut) <= LineCount(items) {
      CutCount(items, cut);
    }
  }

  /** The block within the budget: of all cuts that fit the one with most lines, its note counting exactly
      the lines left out; and no block exactly when no cut fits. What is kept is trimmed in a copy: the caller's
      items are not written to. */
  method RenderLinked(cls: Classifier, items: array<LinkedItem>, budget: int)
    returns (text: string, kept: array<LinkedItem>, n: nat, trimmed: int)
    ensures fresh(kept) && n <= kept.Length
    ensures trimmed + LineCount(kept[..n]) == LineCount(items[..])
    ensures trimmed + Lines(kept[..n]) == Lines(items[..]) && (n > 0 && budget > 0 ==> TokenCount(cls, text) <= budget)
    ensures IsKept(items[..], FitsAt(items[..], Within(cls, budget)), kept[..n])
    ensures text == if n == 0 then "" else Block(kept[..n], trimmed)
  {
    kept := CopyItems(items);
    if items.Length == 0 {
      return "", kept, 0, 0;
    }
    text, n, trimmed := TrimToFit(kept, Within(cls, budget));
    PrintedWithin(cls, budget, items[..], kept[..n], text, trimmed);
  }

  method CopyItems(items: array<LinkedItem>) returns (kept: array<LinkedItem>)
    ensures fresh(kept) && kept[..] == items[..]
  {
    kept := new LinkedItem[items.Length];
    for i := 0 to items.Length
      invariant kept[..i] == items[..i]
    {
      kept[i] := items[i];
    }
    assert kept[..items.Length] == kept[..] && items[..items.Length] == items[..];
  }

  /** That specification leaves one result, and keeps no fewer lines when more fits. */
  lemma MoreFitsMoreKept(items: seq<LinkedItem>, fits: seq<LinkedItem> -> bool, a: seq<LinkedItem>,
                         more: seq<LinkedItem> -> bool, b: seq<LinkedItem>)
    requires IsKept(items, fits, a) && IsKept(items, more, b)
    requires forall c :: fits(c) ==> more(c)
    ensures LineCount(a) <= LineCount(b)
    ensures fits == more ==> a == b
  {
    if a != [] {
      CutCount(items, a);
      assert fits(a) && more(a);
    }
    if b != [] {
      CutCount(items, b);
    }
    if fits == more && a != [] {
      CutUnique(items, a, b);
    }
  }

  /** A larger budget, or none, never keeps fewer lines. */
  lemma LargerBudget(cls: Classifier, items: seq<LinkedItem>, budget: int, a: seq<LinkedItem>, larger: int,
                     b: seq<LinkedItem>)
    requires IsKept(items, FitsAt(items, Within(cls, budget)), a)
        && IsKept(items, FitsAt(items, Within(cls, larger)), b)
    requires 0 < budget <= larger || larger <= 0
    ensures LineCount(a) <= LineCount(b)
  {
    assert forall text :: Within(cls, budget)(text) ==> Within(cls, larger)(text);
    WiderPasses(items, Block, Within(cls, budget), Within(cls, larger));
    MoreFitsMoreKept(items, FitsAt(items, Within(cls, budget)), a, FitsAt(items, Within(cls, larger)), b);
  }

  lemma WiderPasses(items: seq<LinkedItem>, block: (seq<LinkedItem>, int) -> string, within: string -> bool,
                    wider: string -> bool)
    requires forall text :: within(text) ==> wider(text)
    ensures forall c :: Passes(items, block, within)(c) ==> Passes(items, block, wider)(c)
  {
    forall c | Passes(items, block, within)(c) ensures Passes(items, block, wider)(c) {
      assert within(block(c, LineCount(items) - LineCount(c)));
    }
  }

  /** Within the budget, or without one, nothing is trimmed. */
  lemma AllKeptWhenAllFits(items: seq<LinkedItem>, within: string -> bool, kept: seq<LinkedItem>)
    requires items != [] && IsKept(items, FitsAt(items, within), kept) && within(Block(items, 0))
    ensures kept == items
  {
    AllKept(items, FitsAt(items, within));
    assert FitsAt(items, within)(items);
    CutCount(items, items);
    if kept != [] {
      CutCount(items, kept);
      CutUnique(items, kept, items);
    }
  }

  // ---- The budget ----------------------------------------------------------

  const LINKED_SHARE := 15

  /** The block's budget: unlimited (0) exactly when the context length is unknown, and otherwise at least a
      token and at most its share of the context. */
  function LinkedBudget(ctxLen: int): (budget: int)
    ensures budget == 0 <==> ctxLen <= 0
    ensures ctxLen > 0 ==> budget >= 1 && (budget * 100 <= ctxLen * 15 || budget == 1)
    ensures ctxLen > 0 ==> ctxLen * 15 < (budget + 1) * 100
  {
    if ctxLen <= 0 then 0
    else
      var share := ctxLen * LINKED_SHARE / 100;
      if share > 1 then share else 1
  }

  // ---- Told by the items ---------------------------------------------------

  ghost function Lines(items: seq<LinkedItem>): nat {
    if items == [] then 0 else Lines(items[..|items| - 1]) + 1 + |items[|items| - 1].lines|
  }

  lemma {:induction false} LinesAre(items: seq<LinkedItem>)
    ensures LineCount(items) == Lines(items)
  {
    if items != [] {
      LinesAre(items[..|items| - 1]);
    }
  }

  ghost function Indented(lines: seq<string>): string {
    if lines == [] then "" else Indented(lines[..|lines| - 1]) + ("  - " + lines[|lines| - 1] + "\n")
  }

  /** A line for each object, and under it its own. */
  ghost function Printed(items: seq<LinkedItem>): string {
    if items == [] then ""
    else
      var it := items[|items| - 1];
      Printed(items[..|items| - 1]) + ("- " + it.kind + " " + it.name + ": " + it.facts + "\n" + Indented(it.lines))
  }

  lemma {:induction false} IndentedAre(lines: seq<string>)
    ensures Text(Map(LineRow, lines)) == Indented(lines)
  {
    if lines != [] {
      var n := |lines| - 1;
      IndentedAre(lines[..n]);
      MapStep(LineRow, lines, n);
      assert lines[..n + 1] == lines;
    }
  }

  lemma {:induction false} PrintedAre(items: seq<LinkedItem>)
    ensures Text(Map(ItemRows, items)) == Printed(items)
  {
    if items != [] {
      var n := |items| - 1;
      PrintedAre(items[..n]);
      IndentedAre(items[n].lines);
      MapStep(ItemRows, items, n);
      assert items[..n + 1] == items;
    }
  }

  /** The block is its heading, every item kept, and a note of the lines left out when there are any. */
  lemma BlockExactly(items: seq<LinkedItem>, trimmed: int)
    ensures Block(items, trimmed) == HEADING + Printed(items) + TrimNote(trimmed)
    ensures TrimNote(trimmed) == if trimmed <= 0 then "" else
                                 "(" + Decimal(trimmed) + " linked evidence "
                                     + (if trimmed == 1 then "line" else "lines")
                                 + " trimmed to fit the model's context)\n"
  {
    PrintedAre(items);
  }

  /** The block of these items alone is within the budget, if there is one. */
  ghost predicate Affords(cls: Classifier, budget: int, items: seq<LinkedItem>, some: seq<LinkedItem>) {
    budget <= 0 || TokenCount(cls, Block(some, Lines(items) - Lines(some))) <= budget
  }

  ghost function FirstLines(it: LinkedItem, k: nat): LinkedItem
    requires k <= |it.lines|
  {
    LinkedItem(it.rule, it.kind, it.ns, it.name, it.facts, it.lines[..k])
  }

  lemma PassesWith(items: seq<LinkedItem>, block: (seq<LinkedItem>, int) -> string, within: string -> bool,
                   some: seq<LinkedItem>, left: int, text: string)
    requires left == LineCount(items) - LineCount(some) && text == block(some, left)
    ensures Passes(items, block, within)(some) == within(text)
  {
  }

  lemma WithinExactly(cls: Classifier, budget: int, text: string)
    ensures Within(cls, budget)(text) <==> budget <= 0 || TokenCount(cls, text) <= budget
  {
  }

  /** What is printed is within the budget, and what is trimmed is the rest. */
  lemma PrintedWithin(cls: Classifier, budget: int, items: seq<LinkedItem>, kept: seq<LinkedItem>, text: string,
                      trimmed: int)
    requires IsKept(items, FitsAt(items, Within(cls, budget)), kept) && trimmed + LineCount(kept) == LineCount(items)
    requires text == if kept == [] then "" else Block(kept, trimmed)
    ensures trimmed + Lines(kept) == Lines(items) && (kept != [] && budget > 0 ==> TokenCount(cls, text) <= budget)
  {
    AffordsExactly(cls, budget, items, kept);
    LinesAre(items);
    LinesAre(kept);
  }

  lemma AffordsExactly(cls: Classifier, budget: int, items: seq<LinkedItem>, some: seq<LinkedItem>)
    ensures FitsAt(items, Within(cls, budget))(some) <==> Affords(cls, budget, items, some)
  {
    var left := Lines(items) - Lines(some);
    var text := Block(some, left);
    assert left == LineCount(items) - LineCount(some) by {
      LinesAre(items);
      LinesAre(some);
    }
    PassesWith(items, Block, Within(cls, budget), some, left, text);
    WithinExactly(cls, budget, text);
  }

  /** The first objects whole, or the first lines of the first one alone: as many as the budget affords. */
  lemma KeptExactly(cls: Classifier, budget: int, items: seq<LinkedItem>, kept: seq<LinkedItem>)
    requires items != [] && IsKept(items, FitsAt(items, Within(cls, budget)), kept)
    ensures kept != [] ==> Affords(cls, budget, items, kept)
    ensures |kept| <= |items|
    ensures |kept| > 1 ==> kept == items[..|kept|]
    ensures |kept| == 1 ==> |kept[0].lines| <= |items[0].lines| && kept[0] == FirstLines(items[0], |kept[0].lines|)
    ensures forall m :: |kept| < m <= |items| ==> !Affords(cls, budget, items, items[..m])
    ensures |kept| <= 1 ==>
              var k0 := if kept == [] then 0 else |kept[0].lines| + 1;
              forall k :: k0 <= k <= |items[0].lines| ==> !Affords(cls, budget, items, [FirstLines(items[0], k)])
  {
    var fits := FitsAt(items, Within(cls, budget));
    AffordsExactly(cls, budget, items, kept);
    forall m | |kept| < m <= |items| ensures !Affords(cls, budget, items, items[..m]) {
      MoreObjects(items, kept, fits, m);
      AffordsExactly(cls, budget, items, items[..m]);
    }
    if |kept| <= 1 {
      var k0 := if kept == [] then 0 else |kept[0].lines| + 1;
      if kept != [] {
        CutOne(items, kept);
      }
      forall k | k0 <= k <= |items[0].lines| ensures !Affords(cls, budget, items, [FirstLines(items[0], k)]) {
        MoreLines(items, kept, fits, k);
        AffordsExactly(cls, budget, items, [FirstLines(items[0], k)]);
      }
    }
  }

  lemma MoreObjects(items: seq<LinkedItem>, kept: seq<LinkedItem>, fits: seq<LinkedItem> -> bool, m: nat)
    requires IsKept(items, fits, kept) && |kept| < m <= |items|
    ensures !fits(items[..m])
  {
    assert IsCut(items, items[..m]);
    if kept == [] {
      CutCount(items, items[..m]);
    } else {
      CutTooSmall(items, kept, items[..m]);
    }
  }

  lemma MoreLines(items: seq<LinkedItem>, kept: seq<LinkedItem>, fits: seq<LinkedItem> -> bool, k: nat)
    requires items != [] && IsKept(items, fits, kept) && |kept| <= 1 && k <= |items[0].lines|
    requires kept != [] ==> k > |kept[0].lines|
    ensures !fits([FirstLines(items[0], k)])
  {
    var cut := [FirstLines(items[0], k)];
    assert cut[0] == Shortened(items[0], k) && IsCut(items, cut);
    LineCountOne(cut[0]);
    if kept != [] {
      CutOne(items, kept);
    }
  }
}
