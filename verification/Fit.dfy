/** Fitting an object's evidence into the model's context (rca.go): the rendered prompt, and the three binary
    searches that trim it. */
module Fit {
  import opened Rows
  import opened Sequences
  import opened Events
  import opened Tokens
  import opened Selecting
  import opened Trimming
  import opened TrimLaws

  /** What the code takes from Unicode tables and regular expressions. */
  datatype Env = Env(cls: Classifier, isError: string -> bool, readable: string -> seq<string>)

  const CONTAINER_STATE := "Container state: "

  datatype Evidence = Evidence(
    head: string,
    events: seq<Event>,
    describe: string,
    kind: string,
    members: seq<Event>,
    logsHead: string,
    logs: string,
    note: string,
    linked: string,
    tail: string)

  // ---- Rendering -----------------------------------------------------------

  function EventText(ev: Event): string {
    "- [" + ev.eventType + "] " + ev.reason + ": " + ev.message + "  (×"
  }

  function EventLine(ev: Event): string {
    EventText(ev) + Signed(ev.count) + ", " + ev.age + " ago)" + "\n"
  }

  function MemberText(ev: Event): string {
    "- " + ev.kind + " " + ev.objectName + " " + ev.reason + ": " + ev.message + "  (×"
  }

  function MemberLine(ev: Event): string {
    MemberText(ev) + Signed(ev.count) + ", " + ev.age + " ago)"
  }

  function MemberRow(ev: Event): string {
    MemberLine(ev) + "\n"
  }

  function LogRow(line: string): string {
    line + "\n"
  }

  const TRIMMED := " trimmed to fit the model's context)\n"

  function TrimNote(n: int, one: string): string {
    if n <= 0 then "" else "(" + Decimal(n) + " older " + PluralWord(one, one + "s", n) + TRIMMED
  }

  function EventRows(es: seq<Event>, n: nat): string {
    Text(Map(EventLine, Select(es, NewestSet(es, n))))
  }

  function MemberRows(es: seq<Event>, n: nat): string
    requires n <= |es|
  {
    Text(Map(MemberRow, es[..n]))
  }

  function EventsHead(total: nat): string {
    "Events (" + Decimal(total) + " total):\n"
  }

  function EventsBlock(total: nat, n: nat, rows: string): string {
    EventsHead(total) + rows + TrimNote(total - n, "event")
  }

  const NO_EVENTS := "No events recorded for this object.\n"

  function EventsSection(e: Evidence, n: nat): string
    requires n <= |e.events|
  {
    if e.events == [] then NO_EVENTS else EventsBlock(|e.events|, n, EventRows(e.events, n))
  }

  function MembersBlock(kind: string, total: nat, n: nat, rows: string): string {
    MembersHead(kind) + rows + TrimNote(total - n, "warning")
  }

  function MembersHead(kind: string): string {
    "\nWarnings on objects this " + kind + " owns:\n"
  }

  function MembersSection(e: Evidence, n: nat): string
    requires n <= |e.members|
  {
    if e.members == [] then "" else MembersBlock(e.kind, |e.members|, n, MemberRows(e.members, n))
  }

  function Cut(s: string, sep: char): (string, string) {
    if s == [] then ("", "")
    else if s[0] == sep then ("", s[1..])
    else var r := Cut(s[1..], sep); ([s[0]] + r.0, r.1)
  }

  /** The containers' state line, when the logs start with one, and the log lines worth reading. */
  function LogLines(env: Env, logs: string): (string, seq<string>) {
    if CONTAINER_STATE <= logs then var r := Cut(logs, '\n'); (r.0, env.readable(r.1))
    else ("", env.readable(logs))
  }

  function Lines(env: Env, e: Evidence): seq<string> {
    LogLines(env, e.logs).1
  }

  function StateRow(env: Env, e: Evidence): string {
    var state := LogLines(env, e.logs).0;
    if state == "" then "" else state + "\n"
  }

  function KeptNote(kept: nat, total: nat): string {
    "(log lines trimmed to fit the model's context: " + Decimal(Fewer(kept, total)) + " of " + Decimal(total)
    + " kept, error lines first)\n"
  }

  function PickedRows(env: Env, lines: seq<string>, n: nat): seq<string> {
    Map(LogRow, Select(lines, PickSet(Errors(lines, env.isError), |lines|, n)))
  }

  /** The logs, as fetched when n is negative, or n of their lines. */
  function LogsSection(env: Env, e: Evidence, n: int): string {
    if e.logs == "" then ""
    else if n < 0 then e.logsHead + e.logs
    else e.logsHead + StateRow(env, e) + Text(PickedRows(env, Lines(env, e), n)) + KeptNote(n, |Lines(env, e)|)
  }

  predicate Within(e: Evidence, c: Selection) {
    c.events <= |e.events| && c.members <= |e.members|
  }

  function Render(env: Env, e: Evidence, c: Selection): string
    requires Within(e, c)
  {
    e.head + EventsSection(e, c.events) + e.describe + MembersSection(e, c.members) + LogsSection(env, e, c.logs)
    + e.note + e.linked + e.tail
  }

  predicate Fits(env: Env, e: Evidence, budget: int, c: Selection) {
    Within(e, c) && TokenCount(env.cls, Render(env, e, c)) <= budget
  }

  // ---- What a line costs ---------------------------------------------------

  lemma CharWeight(cls: Classifier, c: char)
    ensures Weight(cls, [c]) == ClassWeight(cls(c))
  {
    assert [c][..0] == [];
    assert Weight(cls, []) == 0;
  }

  /** An event's or a member's line costs more than a shorter "trimmed" note can save. */
  lemma CountedRowWeight(cls: Classifier, a: string, n: int, b: string)
    requires AsciiOk(cls)
    ensures Weight(cls, a + Signed(n) + b + "\n") >= 136 + 55
  {
    WeightConcat(cls, a + Signed(n) + b, "\n");
    WeightConcat(cls, a + Signed(n), b);
    WeightConcat(cls, a, Signed(n));
    SignedWeight(cls, n);
    CharWeight(cls, '\n');
  }

  lemma EventLineWeight(cls: Classifier, ev: Event)
    requires AsciiOk(cls)
    ensures Weight(cls, EventLine(ev)) >= 136 + 55
  {
    var b := ", " + ev.age + " ago)";
    assert EventLine(ev) == EventText(ev) + Signed(ev.count) + b + "\n";
    CountedRowWeight(cls, EventText(ev), ev.count, b);
  }

  lemma MemberRowWeight(cls: Classifier, ev: Event)
    requires AsciiOk(cls)
    ensures Weight(cls, MemberRow(ev)) >= 136 + 55
  {
    var b := ", " + ev.age + " ago)";
    assert MemberRow(ev) == MemberText(ev) + Signed(ev.count) + b + "\n";
    CountedRowWeight(cls, MemberText(ev), ev.count, b);
  }

  lemma PluralWeight(cls: Classifier, one: string, n: int)
    requires AsciiOk(cls)
    ensures Weight(cls, one) <= Weight(cls, PluralWord(one, one + "s", n)) <= Weight(cls, one) + 23
  {
    WeightConcat(cls, one, "s");
    CharWeight(cls, 's');
  }

  lemma NoteWeight(cls: Classifier, n: int, one: string)
    requires AsciiOk(cls) && n > 0
    ensures Weight(cls, TrimNote(n, one)) ==
            Weight(cls, "(") + 136 * |Decimal(n)| + Weight(cls, " older ")
            + Weight(cls, PluralWord(one, one + "s", n)) + Weight(cls, TRIMMED)
  {
    var word := PluralWord(one, one + "s", n);
    WeightConcat(cls, "(" + Decimal(n) + " older " + word, TRIMMED);
    WeightConcat(cls, "(" + Decimal(n) + " older ", word);
    WeightConcat(cls, "(" + Decimal(n), " older ");
    WeightConcat(cls, "(", Decimal(n));
    DecimalWeight(cls, n);
  }

  /** While something stays trimmed, one less saves at most a digit and a plural. */
  lemma NoteShrinks(cls: Classifier, n: int, one: string)
    requires AsciiOk(cls) && n >= 2
    ensures Weight(cls, TrimNote(n, one)) <= Weight(cls, TrimNote(n - 1, one)) + 136 + 23
  {
    NoteWeight(cls, n, one);
    NoteWeight(cls, n - 1, one);
    PluralWeight(cls, one, n);
    PluralWeight(cls, one, n - 1);
    DecimalStep(n - 1);
  }

  // ---- Sections cost more the more they show -------------------------------

  lemma EventRowsGrow(cls: Classifier, es: seq<Event>, n: nat)
    requires AsciiOk(cls) && n < |es|
    ensures Weight(cls, EventRows(es, n)) + 136 + 55 <= Weight(cls, EventRows(es, n + 1))
  {
    var x := NewestSetNext(es, n);
    var keep := NewestSet(es, n);
    SelectMore(es, keep, x, RowWeight(cls, EventLine));
    TextWeight(cls, EventLine, Select(es, keep));
    TextWeight(cls, EventLine, Select(es, keep + {x}));
    EventLineWeight(cls, es[x]);
  }

  lemma MemberRowsGrow(cls: Classifier, es: seq<Event>, n: nat)
    requires AsciiOk(cls) && n < |es|
    ensures Weight(cls, MemberRows(es, n)) + 136 + 55 <= Weight(cls, MemberRows(es, n + 1))
  {
    SumByStep(es, RowWeight(cls, MemberRow), n);
    TextWeight(cls, MemberRow, es[..n]);
    TextWeight(cls, MemberRow, es[..n + 1]);
    MemberRowWeight(cls, es[n]);
  }

  lemma EventsGrow(cls: Classifier, e: Evidence, n: nat)
    requires AsciiOk(cls) && n + 1 < |e.events|
    ensures Weight(cls, EventsSection(e, n)) <= Weight(cls, EventsSection(e, n + 1))
  {
    var k := |e.events| - n;
    var a, b := EventRows(e.events, n), EventRows(e.events, n + 1);
    var note, note' := TrimNote(k, "event"), TrimNote(k - 1, "event");
    EventRowsGrow(cls, e.events, n);
    NoteShrinks(cls, k, "event");
    SectionGrows(cls, EventsHead(|e.events|), a, note, b, note');
  }

  lemma SectionGrows(cls: Classifier, head: string, a: string, note: string, b: string, note': string)
    requires Weight(cls, a) + 136 + 23 <= Weight(cls, b) && Weight(cls, note) <= Weight(cls, note') + 136 + 23
    ensures Weight(cls, head + a + note) <= Weight(cls, head + b + note')
  {
    WeightConcat(cls, head + a, note);
    WeightConcat(cls, head, a);
    WeightConcat(cls, head + b, note');
    WeightConcat(cls, head, b);
  }

  lemma MembersGrow(cls: Classifier, e: Evidence, n: nat)
    requires AsciiOk(cls) && n + 1 < |e.members|
    ensures Weight(cls, MembersSection(e, n)) <= Weight(cls, MembersSection(e, n + 1))
  {
    var k := |e.members| - n;
    var a, b := MemberRows(e.members, n), MemberRows(e.members, n + 1);
    var note, note' := TrimNote(k, "warning"), TrimNote(k - 1, "warning");
    MemberRowsGrow(cls, e.members, n);
    NoteShrinks(cls, k, "warning");
    SectionGrows(cls, MembersHead(e.kind), a, note, b, note');
  }

  lemma DecimalMonotone(n: nat)
    ensures |Decimal(n)| <= |Decimal(n + 1)|
  {
    DecimalStep(n);
  }

  lemma KeptNoteWeight(cls: Classifier, n: nat, total: nat)
    requires AsciiOk(cls) && n < total
    ensures Weight(cls, KeptNote(n, total)) <= Weight(cls, KeptNote(n + 1, total))
  {
    var a, m, z := "(log lines trimmed to fit the model's context: ", " of " + Decimal(total),
        " kept, error lines first)\n";
    DecimalWeight(cls, n);
    DecimalWeight(cls, n + 1);
    DecimalMonotone(n);
    assert KeptNote(n, total) == a + Decimal(n) + (m + z);
    assert KeptNote(n + 1, total) == a + Decimal(n + 1) + (m + z);
    WeightConcat(cls, a + Decimal(n), m + z);
    WeightConcat(cls, a, Decimal(n));
    WeightConcat(cls, a + Decimal(n + 1), m + z);
    WeightConcat(cls, a, Decimal(n + 1));
  }

  lemma LogsGrow(env: Env, e: Evidence, n: nat)
    requires AsciiOk(env.cls) && e.logs != "" && n < |Lines(env, e)|
    ensures Weight(env.cls, LogsSection(env, e, n)) <= Weight(env.cls, LogsSection(env, e, n + 1))
  {
    var lines := Lines(env, e);
    var errs := Errors(lines, env.isError);
    ErrorsAreErrors(lines, env.isError);
    var x := PickSetNext(errs, |lines|, n);
    var keep := PickSet(errs, |lines|, n);
    SelectMore(lines, keep, x, RowWeight(env.cls, LogRow));
    TextWeight(env.cls, LogRow, Select(lines, keep));
    TextWeight(env.cls, LogRow, Select(lines, keep + {x}));
    KeptNoteWeight(env.cls, n, |lines|);
    var head := e.logsHead + StateRow(env, e);
    WeightConcat(env.cls, head + Text(PickedRows(env, lines, n)), KeptNote(n, |lines|));
    WeightConcat(env.cls, head, Text(PickedRows(env, lines, n)));
    WeightConcat(env.cls, head + Text(PickedRows(env, lines, n + 1)), KeptNote(n + 1, |lines|));
    WeightConcat(env.cls, head, Text(PickedRows(env, lines, n + 1)));
  }

  lemma RenderWeight(env: Env, e: Evidence, c: Selection)
    requires Within(e, c)
    ensures Weight(env.cls, Render(env, e, c)) ==
            Weight(env.cls, e.head) + Weight(env.cls, EventsSection(e, c.events)) + Weight(env.cls, e.describe)
            + Weight(env.cls, MembersSection(e, c.members)) + Weight(env.cls, LogsSection(env, e, c.logs))
            + Weight(env.cls, e.note) + Weight(env.cls, e.linked) + Weight(env.cls, e.tail)
  {
    var a := e.head + EventsSection(e, c.events);
    var b := a + e.describe;
    var d := b + MembersSection(e, c.members);
    var f := d + LogsSection(env, e, c.logs);
    var g := f + e.note;
    WeightConcat(env.cls, e.head, EventsSection(e, c.events));
    WeightConcat(env.cls, a, e.describe);
    WeightConcat(env.cls, b, MembersSection(e, c.members));
    WeightConcat(env.cls, d, LogsSection(env, e, c.logs));
    WeightConcat(env.cls, f, e.note);
    WeightConcat(env.cls, g, e.linked);
    WeightConcat(env.cls, g + e.linked, e.tail);
  }

  lemma FitsByWeight(env: Env, e: Evidence, budget: int, a: Selection, b: Selection)
    requires Within(e, a) && Fits(env, e, budget, b)
    requires Weight(env.cls, Render(env, e, a)) <= Weight(env.cls, Render(env, e, b))
    ensures Fits(env, e, budget, a)
  {
    TokenCountMonotone(env.cls, Render(env, e, a), Render(env, e, b));
  }

  /** What fits with one event more fits with one event less, below the full number. */
  lemma FewerEventsFit(env: Env, e: Evidence, budget: int, n: nat, m: nat, l: int)
    requires AsciiOk(env.cls) && n + 1 < |e.events| && Fits(env, e, budget, Selection(n + 1, m, l))
    ensures Fits(env, e, budget, Selection(n, m, l))
  {
    RenderWeight(env, e, Selection(n, m, l));
    RenderWeight(env, e, Selection(n + 1, m, l));
    EventsGrow(env.cls, e, n);
    FitsByWeight(env, e, budget, Selection(n, m, l), Selection(n + 1, m, l));
  }

  lemma FewerMembersFit(env: Env, e: Evidence, budget: int, n: nat, m: nat, l: int)
    requires AsciiOk(env.cls) && m + 1 < |e.members| && Fits(env, e, budget, Selection(n, m + 1, l))
    ensures Fits(env, e, budget, Selection(n, m, l))
  {
    RenderWeight(env, e, Selection(n, m, l));
    RenderWeight(env, e, Selection(n, m + 1, l));
    MembersGrow(env.cls, e, m);
    FitsByWeight(env, e, budget, Selection(n, m, l), Selection(n, m + 1, l));
  }

  lemma FewerLogsFit(env: Env, e: Evidence, budget: int, n: nat, m: nat, l: nat)
    requires AsciiOk(env.cls) && e.logs != "" && l < |Lines(env, e)| && Fits(env, e, budget, Selection(n, m, l + 1))
    ensures Fits(env, e, budget, Selection(n, m, l))
  {
    RenderWeight(env, e, Selection(n, m, l));
    RenderWeight(env, e, Selection(n, m, l + 1));
    LogsGrow(env, e, l);
    FitsByWeight(env, e, budget, Selection(n, m, l), Selection(n, m, l + 1));
  }

  // ---- Fitting -------------------------------------------------------------

  function ShapeOf(env: Env, e: Evidence): Shape {
    Shape(|e.events|, |e.members|, e.logs != "", |Lines(env, e)|)
  }

  function FitsAt(env: Env, e: Evidence, budget: int): Selection -> bool {
    c => Fits(env, e, budget, c)
  }

  /** A prompt with one line less, of any kind, fits when the one with it does, below the full numbers. */
  lemma FitsIsMonotone(env: Env, e: Evidence, budget: int)
    requires AsciiOk(env.cls)
    ensures Monotone(ShapeOf(env, e), FitsAt(env, e, budget))
  {
    var s, fits := ShapeOf(env, e), FitsAt(env, e, budget);
    forall n: nat, m: nat, l: nat | n <= s.events && m <= s.members && s.hasLogs && l < s.lines
        && fits(Selection(n, m, l + 1))
      ensures fits(Selection(n, m, l))
    {
      FewerLogsFit(env, e, budget, n, m, l);
    }
    forall n: nat, m: nat, l: int | n <= s.events && m + 1 < s.members && fits(Selection(n, m + 1, l))
      ensures fits(Selection(n, m, l))
    {
      FewerMembersFit(env, e, budget, n, m, l);
    }
    forall n: nat, m: nat, l: int | n + 1 < s.events && m <= s.members && fits(Selection(n + 1, m, l))
      ensures fits(Selection(n, m, l))
    {
      FewerEventsFit(env, e, budget, n, m, l);
    }
  }

  /** What is kept: everything without a budget, and with one the first selection of the trim order that
      fits, or the last. */
  function Kept(env: Env, e: Evidence, budget: int): Selection {
    if budget <= 0 then Full(ShapeOf(env, e)) else FirstFit(TrimOrder(ShapeOf(env, e)), FitsAt(env, e, budget))
  }

  method Choose(env: Env, e: Evidence, budget: int) returns (c: Selection)
    requires AsciiOk(env.cls)
    ensures c == Kept(env, e, budget)
  {
    var full := Full(ShapeOf(env, e));
    if budget <= 0 || Fits(env, e, budget, full) {
      return full;
    }
    FitsIsMonotone(env, e, budget);
    MonotoneIsSteady(ShapeOf(env, e), FitsAt(env, e, budget));
    c := Trim(ShapeOf(env, e), FitsAt(env, e, budget));
  }

  lemma KeptWithin(env: Env, e: Evidence, budget: int)
    ensures Within(e, Kept(env, e, budget))
  {
    if budget > 0 {
      FirstFitFits(TrimOrder(ShapeOf(env, e)), FitsAt(env, e, budget));
      OrderBounded(ShapeOf(env, e), Kept(env, e, budget));
    }
  }

  /** The prompt is within its budget exactly when some selection of the trim order is, and then it is
      whenever the fully trimmed prompt is. */
  lemma KeptFits(env: Env, e: Evidence, budget: int)
    requires budget > 0
    ensures Fits(env, e, budget, Kept(env, e, budget)) <==>
            exists i :: 0 <= i < |TrimOrder(ShapeOf(env, e))| && Fits(env, e, budget, TrimOrder(ShapeOf(env, e))[i])
    ensures Fits(env, e, budget, Selection(0, 0, Bottom(ShapeOf(env, e)))) ==>
        Fits(env, e, budget, Kept(env, e, budget))
  {
    var order, fits := TrimOrder(ShapeOf(env, e)), FitsAt(env, e, budget);
    FirstFitFits(order, fits);
    assert forall i :: 0 <= i < |order| ==> (fits(order[i]) <==> Fits(env, e, budget, order[i]));
    if fits(Selection(0, 0, Bottom(ShapeOf(env, e)))) {
      FitsWhenTrimmedFits(ShapeOf(env, e), fits);
    }
  }

  /** A prompt that fits shows the lexicographically most (events, then members, then logs) exactly when nothing
      trimmed could be put back by itself, and always when only log lines had to go. */
  lemma KeptIsRichestExactly(env: Env, e: Evidence, budget: int)
    requires AsciiOk(env.cls) && budget > 0 && Fits(env, e, budget, Kept(env, e, budget))
    ensures var s, fits, r := ShapeOf(env, e), FitsAt(env, e, budget), Kept(env, e, budget);
            && (IsRichest(s, fits, r) <==> NothingPutBack(s, fits, r))
            && (r.events == s.events && r.members == s.members ==> IsRichest(s, fits, r))
  {
    FitsIsMonotone(env, e, budget);
    RichestExactly(ShapeOf(env, e), FitsAt(env, e, budget));
  }

  /** How far down the trim order the kept selection is. */
  ghost function PlaceOfKept(env: Env, e: Evidence, budget: int): (k: nat)
    ensures k < |TrimOrder(ShapeOf(env, e))| && TrimOrder(ShapeOf(env, e))[k] == Kept(env, e, budget)
  {
    if budget <= 0 then 0 else PlaceOf(TrimOrder(ShapeOf(env, e)), FitsAt(env, e, budget))
  }

  /** A larger budget, or none, never trims more: what it keeps comes no later in the trim order. */
  lemma LargerBudget(env: Env, e: Evidence, budget: int, larger: int)
    requires 0 < budget <= larger || larger <= 0
    ensures PlaceOfKept(env, e, larger) <= PlaceOfKept(env, e, budget)
  {
    if larger > 0 {
      LargerBudgetKeepsMore(TrimOrder(ShapeOf(env, e)), FitsAt(env, e, budget), FitsAt(env, e, larger));
    }
  }

  // ---- The builder ---------------------------------------------------------

  method WriteEventRows(es: seq<Event>, n: nat) returns (rows: string)
    ensures rows == EventRows(es, n)
  {
    var kept := NewestEvents(es, n);
    rows := WriteRows(EventLine, kept);
  }

  method WriteEvents(e: Evidence, n: nat) returns (sb: string)
    requires n <= |e.events|
    ensures sb == EventsSection(e, n)
  {
    if |e.events| == 0 {
      return NO_EVENTS;
    }
    var rows := WriteEventRows(e.events, n);
    sb := EventsBlock(|e.events|, n, rows);
  }

  method WriteMembers(e: Evidence, n: nat) returns (sb: string)
    requires n <= |e.members|
    ensures sb == MembersSection(e, n)
  {
    if |e.members| == 0 {
      return "";
    }
    var rows := WriteRows(MemberRow, e.members[..n]);
    sb := MembersBlock(e.kind, |e.members|, n, rows);
  }

  method WriteLogs(env: Env, e: Evidence, n: int) returns (sb: string)
    ensures sb == LogsSection(env, e, n)
  {
    if e.logs == "" {
      return "";
    }
    sb := e.logsHead;
    if n < 0 {
      return sb + e.logs;
    }
    var lines := Lines(env, e);
    var picked := PickLogLines(lines, env.isError, n);
    var rows := WriteRows(LogRow, picked);
    sb := sb + StateRow(env, e) + rows + KeptNote(n, |lines|);
  }

  /** One member more is one row more at the end. */
  lemma MemberRowsMore(es: seq<Event>, n: nat)
    requires n < |es|
    ensures MemberRows(es, n + 1) == MemberRows(es, n) + MemberRow(es[n])
  {
    MapStep(MemberRow, es, n);
  }

  /** The member warnings of a prompt: a row for each of those shown, and a note that counts those left out. */
  function MembersText(kind: string, shown: seq<Event>, left: seq<Event>): string {
    var note := if left == [] then "" else TrimNote(|left|, "warning");
    if shown + left == [] then "" else MembersHead(kind) + Text(Map(MemberRow, shown)) + note
  }

  /** The first ones listed are shown, and the others left out. */
  ghost predicate ShowsFirst(env: Env, e: Evidence, c: Selection, prompt: string, shown: seq<Event>, left: seq<Event>)
    requires Within(e, c)
  {
    && shown + left == e.members
    && prompt == e.head + EventsSection(e, c.events) + e.describe + MembersText(e.kind, shown, left)
                 + LogsSection(env, e, c.logs) + e.note + e.linked + e.tail
  }

  lemma RenderShowsFirst(env: Env, e: Evidence, c: Selection)
    requires Within(e, c)
    ensures ShowsFirst(env, e, c, Render(env, e, c), e.members[..c.members], e.members[c.members..])
  {
    var shown, left := e.members[..c.members], e.members[c.members..];
    assert shown + left == e.members;
    if e.members != [] && left == [] {
      var head, rows := MembersHead(e.kind), MemberRows(e.members, c.members);
      assert head + rows + "" == head + rows;
    }
  }

  /** The events of a prompt: a line for each of those shown, and a note that counts the others. */
  function EventsText(total: nat, shown: seq<Event>): string {
    if total == 0 then NO_EVENTS else EventsBlock(total, |shown|, Text(Map(EventLine, shown)))
  }

  /** The events shown are the newest, in their own order. */
  lemma EventsShown(e: Evidence, n: nat) returns (shown: seq<Event>)
    requires n <= |e.events|
    ensures |shown| == n && (if n == |e.events| then shown == e.events else Recent(e.events, n, shown))
    ensures EventsSection(e, n) == EventsText(|e.events|, shown)
  {
    shown := Select(e.events, NewestSet(e.events, n));
    if n == |e.events| {
      SelectAll(e.events, Below(n));
    } else {
      RecentExactly(e.events, n);
    }
  }

  /** The log lines shown are those picked, after the containers' state, and a note says how many of how many. */
  lemma LogsShown(env: Env, e: Evidence, n: nat) returns (shown: seq<string>)
    requires e.logs != ""
    ensures var lines := Lines(env, e);
            if |lines| <= n then shown == lines else Picked(lines, env.isError, n, shown)
    ensures var state := LogLines(env, e.logs).0;
            LogsSection(env, e, n) == e.logsHead + (if state == "" then "" else state + "\n")
                                      + Text(Map(LogRow, shown)) + KeptNote(|shown|, |Lines(env, e)|)
  {
    var lines := Lines(env, e);
    shown := Select(lines, PickSet(Errors(lines, env.isError), |lines|, n));
    PickedSize(lines, env.isError, n);
    if |lines| <= n {
      SelectAll(lines, Below(|lines|));
    } else {
      PickedExactly(lines, env.isError, n);
    }
  }

  /** A text is cut where the separator first occurs, if it does. */
  lemma {:induction false} CutExactly(s: string, sep: char)
    ensures var (a, b) := Cut(s, sep); sep !in a && (if sep in s then s == a + [sep] + b else s == a && b == "")
  {
    if s != [] && s[0] != sep {
      CutExactly(s[1..], sep);
      var (a, b) := Cut(s[1..], sep);
      assert s == [s[0]] + s[1..];
      assert sep in s[1..] ==> [s[0]] + (a + [sep] + b) == ([s[0]] + a) + [sep] + b;
    }
  }

  ghost predicate FirstLine(logs: string, state: string, rest: string) {
    logs == state + ['\n'] + rest && '\n' !in state
  }

  /** The containers' state is the first line of logs that begin with one, and what is worth reading is looked for in
      the rest. */
  lemma StateExactly(env: Env, logs: string)
    ensures CONTAINER_STATE <= logs && '\n' in logs ==>
              exists state, rest :: FirstLine(logs, state, rest) && LogLines(env, logs) == (state, env.readable(rest))
    ensures CONTAINER_STATE <= logs && '\n' !in logs ==> LogLines(env, logs) == (logs, env.readable(""))
    ensures !(CONTAINER_STATE <= logs) ==> LogLines(env, logs) == ("", env.readable(logs))
  {
    CutExactly(logs, '\n');
    var (state, rest) := Cut(logs, '\n');
    assert '\n' in logs ==> FirstLine(logs, state, rest);
  }

  /** An event's line tells its type, reason, message, count and age, and a member warning's its object too. */
  lemma LinesSay(ev: Event)
    ensures EventLine(ev) == "- [" + ev.eventType + "] " + ev.reason + ": " + ev.message
        + "  (×" + Signed(ev.count) + ", "
                             + ev.age + " ago)" + "\n"
    ensures MemberRow(ev) == "- " + ev.kind + " " + ev.objectName + " " + ev.reason + ": " + ev.message + "  (×"
                             + Signed(ev.count) + ", " + ev.age + " ago)" + "\n"
  {
  }

  /** The full prompt leaves out nothing: all events, all member warnings, and the logs as they were fetched. */
  lemma FullShowsAll(env: Env, e: Evidence)
    ensures Render(env, e, Full(ShapeOf(env, e))) ==
            e.head + EventsText(|e.events|, e.events) + e.describe + MembersText(e.kind, e.members, [])
            + (if e.logs == "" then "" else e.logsHead + e.logs) + e.note + e.linked + e.tail
  {
    var c := Full(ShapeOf(env, e));
    var shown := EventsShown(e, |e.events|);
    assert e.members + [] == e.members;
    RenderShowsFirst(env, e, c);
    assert e.members[..|e.members|] == e.members && e.members[|e.members|..] == [];
  }

  /** A note counts what is left out. */
  lemma NoteSays(n: nat, one: string)
    requires n > 0
    ensures TrimNote(n, one) == "(" + Decimal(n) + (if n == 1 then " older " + one else " older " + (one + "s"))
        + TRIMMED
  {
    var a := "(" + Decimal(n);
    var word := PluralWord(one, one + "s", n);
    assert (a + " older ") + word == a + (" older " + word);
  }

  method RenderPrompt(env: Env, e: Evidence, c: Selection) returns (sb: string)
    requires Within(e, c)
    ensures sb == Render(env, e, c)
  {
    var events := WriteEvents(e, c.events);
    var members := WriteMembers(e, c.members);
    var logs := WriteLogs(env, e, c.logs);
    sb := e.head + events + e.describe + members + logs + e.note + e.linked + e.tail;
  }

  /** The prompt for a budget: the first rendering of the trim order that fits, or the last; within the
      budget whenever the fully trimmed prompt is. */
  method FitEvidence(env: Env, e: Evidence, budget: int)
    returns (prompt: string, ghost shown: seq<Event>, ghost left: seq<Event>)
    requires AsciiOk(env.cls)
    ensures Within(e, Kept(env, e, budget)) && ShowsFirst(env, e, Kept(env, e, budget), prompt, shown, left)
    ensures (forall i, j :: 0 <= i < j < |e.members| ==> e.members[i].last >= e.members[j].last) ==>
              forall a, b :: a in shown && b in left ==> a.last >= b.last
    ensures budget <= 0 || TokenCount(env.cls, Render(env, e, Full(ShapeOf(env, e)))) <= budget ==>
              prompt == Render(env, e, Full(ShapeOf(env, e)))
    ensures Within(e, Kept(env, e, budget)) && prompt == Render(env, e, Kept(env, e, budget))
    ensures budget > 0 && Fits(env, e, budget, Selection(0, 0, Bottom(ShapeOf(env, e)))) ==>
        TokenCount(env.cls, prompt) <= budget
  {
    var c := Choose(env, e, budget);
    KeptWithin(env, e, budget);
    if budget > 0 {
      KeptFits(env, e, budget);
    }
    prompt := RenderPrompt(env, e, c);
    if budget <= 0 || TokenCount(env.cls, Render(env, e, Full(ShapeOf(env, e)))) <= budget {
      FullWhenItFits(env, e, budget);
    }
    shown, left := e.members[..c.members], e.members[c.members..];
    RenderShowsFirst(env, e, c);
    FirstAreNewest(e.members, c.members);
  }

  lemma FullWhenItFits(env: Env, e: Evidence, budget: int)
    requires budget <= 0 || TokenCount(env.cls, Render(env, e, Full(ShapeOf(env, e)))) <= budget
    ensures Kept(env, e, budget) == Full(ShapeOf(env, e))
  {
    if budget > 0 {
      assert TrimOrder(ShapeOf(env, e))[0] == Full(ShapeOf(env, e));
      assert FitsAt(env, e, budget)(Full(ShapeOf(env, e)));
    }
  }

  lemma FirstAreNewest(es: seq<Event>, n: nat)
    requires n <= |es|
    ensures (forall i, j :: 0 <= i < j < |es| ==> es[i].last >= es[j].last) ==>
              forall a, b :: a in es[..n] && b in es[n..] ==> a.last >= b.last
  {
    if forall i, j :: 0 <= i < j < |es| ==> es[i].last >= es[j].last {
      forall a, b | a in es[..n] && b in es[n..] ensures a.last >= b.last {
        var i :| 0 <= i < n && es[..n][i] == a;
        var j :| 0 <= j < |es| - n && es[n..][j] == b;
        assert es[i] == a && es[n + j] == b;
      }
    }
  }
}
