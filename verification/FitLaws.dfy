/** When the trimmed prompt shows the most there is room for (rca.go), by what the code tests on its way, and an
    object whose prompt could have shown a line more. */
module FitLaws {
  import opened Rows
  import opened Sequences
  import opened Events
  import opened Tokens
  import opened Selecting
  import opened Trimming
  import opened TrimLaws
  import opened Fit

  // ---- By the guards of the code -------------------------------------------

  /** The search over log lines found none with which everything else fits. */
  ghost predicate NoLogsFit(env: Env, e: Evidence, budget: int) {
    LogsRejected(ShapeOf(env, e), FitsAt(env, e, budget))
  }

  ghost predicate IsRichestKept(env: Env, e: Evidence, budget: int) {
    IsRichest(ShapeOf(env, e), FitsAt(env, e, budget), Kept(env, e, budget))
  }

  /** As long as trimming log lines is enough, the prompt shows the most there is room for. */
  lemma RichestWhileLogsSuffice(env: Env, e: Evidence, budget: int)
    requires AsciiOk(env.cls) && budget > 0 && !NoLogsFit(env, e, budget)
    ensures IsRichestKept(env, e, budget)
  {
    FitsIsMonotone(env, e, budget);
    RichestUnlessRejected(ShapeOf(env, e), FitsAt(env, e, budget));
  }

  /** Where the search over member warnings stops at m, the prompt shows the most exactly when neither a log line
      nor the logs as fetched fit beside those. */
  lemma RichestWithMembers(env: Env, e: Evidence, budget: int, m: nat)
    requires AsciiOk(env.cls) && budget > 0 && NoLogsFit(env, e, budget)
    requires var ok := MembersOk(ShapeOf(env, e), FitsAt(env, e, budget)); IsMost(|e.members|, ok, m) && ok(m)
    ensures Kept(env, e, budget) == Selection(|e.events|, m, Bottom(ShapeOf(env, e)))
    ensures IsRichestKept(env, e, budget) <==>
            !(e.logs != "" && (|| Fits(env, e, budget, Selection(|e.events|, m, -1))
                               || (Lines(env, e) != [] && Fits(env, e, budget, Selection(|e.events|, m, 1)))))
  {
    FitsIsMonotone(env, e, budget);
    RichestByMembers(ShapeOf(env, e), FitsAt(env, e, budget), m);
  }

  /** Where no number of member warnings fits and the search over events stops at n, the prompt shows the most
      exactly when nothing put back beside those fits. */
  lemma RichestWithEvents(env: Env, e: Evidence, budget: int, n: nat)
    requires AsciiOk(env.cls) && budget > 0 && NoLogsFit(env, e, budget)
    requires forall m: nat :: m <= |e.members| ==> !MembersOk(ShapeOf(env, e), FitsAt(env, e, budget))(m)
    requires var ok := EventsOk(ShapeOf(env, e), FitsAt(env, e, budget)); IsMost(|e.events|, ok, n) && ok(n)
    ensures Kept(env, e, budget) == Selection(n, 0, Bottom(ShapeOf(env, e)))
    ensures IsRichestKept(env, e, budget) <==>
            NothingPutBack(ShapeOf(env, e), FitsAt(env, e, budget), Selection(n, 0, Bottom(ShapeOf(env, e))))
  {
    FitsIsMonotone(env, e, budget);
    RichestByEvents(ShapeOf(env, e), FitsAt(env, e, budget), n);
  }

  // ---- An object that loses a log line for nothing -------------------------

  lemma {:induction false} WeightBounds(cls: Classifier, s: string)
    ensures 23 * |s| <= Weight(cls, s) <= 136 * |s|
  {
    if s != [] {
      WeightBounds(cls, s[..|s| - 1]);
    }
  }

  const ENV := Env(AsciiClass, _ => false, s => if s == "" then [] else [s])
  const BUDGET := 350

  /** A Deployment without events of its own, one warning on an object it owns, and one line of logs. */
  function Loser(ev: Event): Evidence {
    Evidence("", [], "", "Deployment", [ev], "", "x", "", "", "")
  }

  lemma OneLine(ev: Event)
    ensures Lines(ENV, Loser(ev)) == ["x"] && StateRow(ENV, Loser(ev)) == ""
    ensures ShapeOf(ENV, Loser(ev)) == Shape(0, 1, true, 1)
  {
    assert !(CONTAINER_STATE <= "x") by {
      assert |CONTAINER_STATE| > 1;
    }
  }

  lemma PickedShort(ev: Event)
    ensures |Text(PickedRows(ENV, ["x"], 1))| <= 2
  {
    var keep := PickSet(Errors(["x"], ENV.isError), 1, 1);
    var kept := Select(["x"], keep);
    assert ["x"][..0] == [] && Select(["x"][..0], keep) == [];
    assert kept == ["x"];
    var rows := Map(LogRow, kept);
    assert |rows| == 1 && rows[0] == "x" + "\n" && rows[..0] == [];
    assert Text(rows) == Text([]) + rows[0];
  }

  lemma NoEventsShort()
    ensures |NO_EVENTS| <= 40
  {
  }

  lemma HeadShort()
    ensures |MembersHead("Deployment")| <= 50
  {
  }

  lemma NoteShort()
    ensures |TrimNote(1, "warning")| <= 60
  {
    assert |Decimal(1)| == 1;
  }

  lemma KeptNoteShort()
    ensures |KeptNote(1, 1)| <= 95
  {
    assert |Decimal(1)| == 1;
  }

  lemma SmallPrompt(ev: Event)
    ensures Fits(ENV, Loser(ev), BUDGET, Selection(0, 0, 1))
  {
    var e := Loser(ev);
    OneLine(ev);
    PickedShort(ev);
    NoEventsShort();
    HeadShort();
    NoteShort();
    KeptNoteShort();
    assert MemberRows(e.members, 0) == "";
    assert |MembersSection(e, 0)| <= 110;
    assert |LogsSection(ENV, e, 1)| <= 97;
    var prompt := Render(ENV, e, Selection(0, 0, 1));
    assert |prompt| <= 247;
    WeightBounds(ENV.cls, prompt);
  }

  lemma LongPrompt(ev: Event, l: int)
    requires |ev.message| >= 1600
    ensures !Fits(ENV, Loser(ev), BUDGET, Selection(0, 1, l))
  {
    var e, c := Loser(ev), Selection(0, 1, l);
    RenderWeight(ENV, e, c);
    assert e.members[..1] == [ev];
    LongMember(ev);
  }

  lemma LongMember(ev: Event)
    ensures Weight(ENV.cls, MembersSection(Loser(ev), 1)) >= 23 * |ev.message|
  {
    WeightBounds(ENV.cls, MembersSection(Loser(ev), 1));
  }

  /** Not always the most: with a long warning on an owned object, the log line goes first, does not help, and
      is not put back when the warning has gone as well, though it would fit. */
  lemma LogLineNotPutBack(ev: Event)
    requires |ev.message| >= 1600
    ensures AsciiOk(ENV.cls) && Kept(ENV, Loser(ev), BUDGET) == Selection(0, 0, 0)
    ensures Fits(ENV, Loser(ev), BUDGET, Selection(0, 0, 1))
    ensures !IsRichestKept(ENV, Loser(ev), BUDGET)
  {
    var e := Loser(ev);
    var s, fits := ShapeOf(ENV, e), FitsAt(ENV, e, BUDGET);
    OneLine(ev);
    SmallPrompt(ev);
    forall l: int ensures !fits(Selection(0, 1, l)) {
      LongPrompt(ev, l);
    }
    FewerLogsFit(ENV, e, BUDGET, 0, 0, 0);
    assert LogsRejected(s, fits);
    assert !MembersOk(s, fits)(1);
    MembersFit(s, fits, 0);
    assert fits(Selection(0, 0, 1)) && InShape(s, Selection(0, 0, 1))
        && Richer(s, Selection(0, 0, 1), Selection(0, 0, 0));
  }
}
