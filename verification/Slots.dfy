/** The model's slots (settings.go) shared by user calls and the clusters' background notes (brief.go): each
    critical section is a step, and reading the limit is a step of its own. */
module Slots {

  const LEAST_CALLS := 1
  const MOST_CALLS := 10

  function Clamp(n: int): (m: int)
    ensures LEAST_CALLS <= m <= MOST_CALLS
    ensures LEAST_CALLS <= n <= MOST_CALLS ==> m == n
  {
    if n < LEAST_CALLS then LEAST_CALLS else if n > MOST_CALLS then MOST_CALLS else n
  }

  class SlotCounter {
    var maxCalls: int
    var active: int

    constructor ()
      ensures maxCalls == 3 && active == 0
    {
      maxCalls, active := 3, 0;
    }

    method SetMaxCalls(n: int)
      modifies this`maxCalls
      ensures maxCalls == Clamp(n)
      ensures (n < 1 ==> maxCalls == 1) && (1 <= n <= 10 ==> maxCalls == n) && (n > 10 ==> maxCalls == 10)
    {
      var m := n;
      if m < 1 {
        m := 1;
      }
      if m > 10 {
        m := 10;
      }
      maxCalls := m;
    }

    /** The second half of taking a slot: the limit was read before, and may have changed since. */
    method TryAcquire(seen: int) returns (ok: bool)
      modifies this`active
      ensures ok == (old(active) < seen) && active == old(active) + if ok then 1 else 0
    {
      if active >= seen {
        return false;
      }
      active := active + 1;
      ok := true;
    }

    method Release()
      modifies this`active
      ensures active == old(active) - 1
    {
      active := active - 1;
    }
  }

  // ---- Everyone involved ---------------------------------------------------

  type Cluster = string

  datatype Status = Idle | Waiting | Running | Ready | Error

  datatype Brief = Brief(status: Status, preempted: bool, force: bool)

  /** A note being written: still before its closing section; past it, about to give up its registration; about
      to give back its slot; or done. */
  datatype Phase = Writing | Closed | Leaving | Gone

  datatype Note = Note(cluster: Cluster, phase: Phase)

  /** A user's call: it has read the limit, holds a slot, or is about to stop the note it picked. */
  datatype Caller = Saw(limit: int) | Holding | Stopping(cluster: Cluster, note: nat)

  /** Whoever is starting a note holds its cluster's brief lock. */
  datatype Starter = Seen(limit: int) | Admitted(note: nat)

  datatype Holder = User(id: nat) | NoteOf(id: nat)

  datatype World = World(
    maxCalls: int,
    active: int,
    held: set<Holder>,
    users: map<nat, Caller>,
    briefs: map<Cluster, Brief>,
    starters: map<Cluster, Starter>,
    notes: seq<Note>,
    stops: map<Cluster, nat>)

  const NEW_WORLD := World(3, 0, {}, map[], map[], map[], [], map[])

  datatype Outcome = Failed | Written

  datatype Step =
    | SetMax(n: int)
    | UserSee(user: nat)
    | UserTry(user: nat)
    | UserRelease(user: nat)
    | UserPick(user: nat, cluster: Cluster)
    | UserStop(user: nat)
    | NoteSee(cluster: Cluster)
    | NoteTry(cluster: Cluster)
    | Register(cluster: Cluster)
    | Close(note: nat, outcome: Outcome)
    | Deregister(note: nat)
    | Release(note: nat)

  function BriefOf(w: World, c: Cluster): Brief {
    if c in w.briefs then w.briefs[c] else Brief(Idle, false, false)
  }

  predicate InPhase(w: World, i: nat, p: Phase) {
    i < |w.notes| && w.notes[i].phase == p
  }

  predicate Enabled(w: World, s: Step) {
    match s
    case SetMax(_) => true
    case UserSee(u) => u !in w.users
    case UserTry(u) => u in w.users && w.users[u].Saw?
    case UserRelease(u) => u in w.users && w.users[u].Holding?
    case UserPick(u, c) => u !in w.users && c in w.stops
    case UserStop(u) => u in w.users && w.users[u].Stopping? && w.users[u].cluster !in w.starters
    case NoteSee(c) => c !in w.starters && !BriefOf(w, c).status.Running?
    case NoteTry(c) => c in w.starters && w.starters[c].Seen?
    case Register(c) => c in w.starters && w.starters[c].Admitted?
    case Close(i, _) => InPhase(w, i, Writing) && w.notes[i].cluster !in w.starters
    case Deregister(i) => InPhase(w, i, Closed)
    case Release(i) => InPhase(w, i, Leaving)
  }

  function Move(w: World, i: nat, p: Phase): World
    requires i < |w.notes|
  {
    w.(notes := w.notes[i := Note(w.notes[i].cluster, p)])
  }

  function WithBrief(w: World, c: Cluster, b: Brief): World {
    w.(briefs := w.briefs[c := b])
  }

  /** What the closing section records. */
  function ClosedBrief(b: Brief, o: Outcome): Brief {
    if b.preempted then b.(status := Waiting, force := true)
    else if o.Failed? then b.(status := Error)
    else b.(status := Ready)
  }

  function Next(w: World, s: Step): World
    requires Enabled(w, s)
  {
    match s
    case SetMax(n) => w.(maxCalls := Clamp(n))
    case UserSee(u) => w.(users := w.users[u := Saw(w.maxCalls)])
    case UserTry(u) =>
      if w.active >= w.users[u].limit then w.(users := w.users - {u})
      else w.(active := w.active + 1, held := w.held + {User(u)}, users := w.users[u := Holding])
    case UserRelease(u) => w.(active := w.active - 1, held := w.held - {User(u)}, users := w.users - {u})
    case UserPick(u, c) => w.(stops := w.stops - {c}, users := w.users[u := Stopping(c, w.stops[c])])
    case UserStop(u) =>
      var c := w.users[u].cluster;
      WithBrief(w, c, BriefOf(w, c).(preempted := true)).(users := w.users - {u})
    case NoteSee(c) => w.(starters := w.starters[c := Seen(w.maxCalls)])
    case NoteTry(c) =>
      if w.active >= w.starters[c].limit then
        WithBrief(w, c, BriefOf(w, c).(status := Waiting)).(starters := w.starters - {c})
      else
        var i := |w.notes|;
        WithBrief(w, c, Brief(Running, false, false)).(
          active := w.active + 1, held := w.held + {NoteOf(i)},
          notes := w.notes + [Note(c, Writing)], starters := w.starters[c := Admitted(i)])
    case Register(c) => w.(stops := w.stops[c := w.starters[c].note], starters := w.starters - {c})
    case Close(i, o) =>
      var c := w.notes[i].cluster;
      WithBrief(Move(w, i, Closed), c, ClosedBrief(BriefOf(w, c), o))
    case Deregister(i) => Move(w, i, Leaving).(stops := w.stops - {w.notes[i].cluster})
    case Release(i) => Move(w, i, Gone).(active := w.active - 1, held := w.held - {NoteOf(i)})
  }

  // ---- The invariant -------------------------------------------------------

  ghost predicate LimitsOk(w: World) {
    && LEAST_CALLS <= w.maxCalls <= MOST_CALLS && w.active <= MOST_CALLS
    && (forall u :: u in w.users && w.users[u].Saw? ==> w.users[u].limit <= MOST_CALLS)
    && (forall c :: c in w.starters && w.starters[c].Seen? ==> w.starters[c].limit <= MOST_CALLS)
  }

  /** The count is the number of slots held, by a user's call or by a note that has not given its back. */
  ghost predicate HoldersOk(w: World) {
    w.active == |w.held| && UsersOk(w) && NotesOk(w)
  }

  ghost predicate UsersOk(w: World) {
    forall u: nat {:trigger User(u)} :: User(u) in w.held <==> u in w.users && w.users[u].Holding?
  }

  ghost predicate NotesOk(w: World) {
    forall i: nat {:trigger NoteOf(i)} :: NoteOf(i) in w.held <==> i < |w.notes| && !w.notes[i].phase.Gone?
  }

  predicate Writes(w: World, i: nat, c: Cluster) {
    i < |w.notes| && w.notes[i] == Note(c, Writing)
  }

  /** A brief is running exactly while one note of its cluster is before its closing section. */
  ghost predicate BriefOk(w: World, c: Cluster) {
    && (forall i: nat, j: nat :: Writes(w, i, c) && Writes(w, j, c) ==> i == j)
    && (BriefOf(w, c).status.Running? <==> exists i: nat :: Writes(w, i, c))
    && (c in w.starters && w.starters[c].Seen? ==> !BriefOf(w, c).status.Running?)
    && (c in w.starters && w.starters[c].Admitted? ==> Writes(w, w.starters[c].note, c))
  }

  predicate IsNote(w: World, i: nat, c: Cluster) {
    i < |w.notes| && w.notes[i].cluster == c
  }

  /** What is registered for a cluster, and what a call picked there, is a note of that cluster. */
  ghost predicate StopsOk(w: World) {
    && (forall c :: c in w.stops ==> IsNote(w, w.stops[c], c))
    && (forall u :: u in w.users && w.users[u].Stopping? ==> IsNote(w, w.users[u].note, w.users[u].cluster))
  }

  /** The note being written is its cluster's newest. */
  ghost predicate NewestOk(w: World) {
    forall i: nat, j: nat, c {:trigger Writes(w, i, c), IsNote(w, j, c)} :: Writes(w, i, c) && IsNote(w, j, c) ==>
        j <= i
  }

  ghost predicate Inv(w: World) {
    && LimitsOk(w) && HoldersOk(w) && StopsOk(w) && NewestOk(w)
    && forall c {:trigger BriefOk(w, c)} :: BriefOk(w, c)
  }

  lemma StepKeepsLimits(w: World, s: Step)
    requires LimitsOk(w) && Enabled(w, s)
    ensures LimitsOk(Next(w, s))
  {
  }

  lemma StepKeepsUsers(w: World, s: Step)
    requires UsersOk(w) && Enabled(w, s)
    ensures UsersOk(Next(w, s))
  {
  }

  lemma StepKeepsNotes(w: World, s: Step)
    requires NotesOk(w) && Enabled(w, s)
    ensures NotesOk(Next(w, s))
  {
  }

  lemma StepKeepsHolders(w: World, s: Step)
    requires HoldersOk(w) && Enabled(w, s)
    ensures HoldersOk(Next(w, s))
  {
    StepKeepsUsers(w, s);
    StepKeepsNotes(w, s);
    match s
    case UserTry(u) => assert User(u) !in w.held;
    case UserRelease(u) => assert User(u) in w.held;
    case NoteTry(c) => assert NoteOf(|w.notes|) !in w.held;
    case Release(i) => assert NoteOf(i) in w.held;
    case _ =>
  }

  /** Who writes after a step: whoever wrote before, but for a note begun or closed by it. */
  lemma WritesNext(w: World, s: Step, i: nat, c: Cluster)
    requires Enabled(w, s)
    ensures Writes(Next(w, s), i, c) <==>
            || (Writes(w, i, c) && !(s.Close? && s.note == i))
            || (s.NoteTry? && s.cluster == c && w.active < w.starters[c].limit && i == |w.notes|)
  {
  }

  lemma NoteTryKeepsBrief(w: World, d: Cluster, c: Cluster)
    requires Enabled(w, NoteTry(d)) && BriefOk(w, c)
    ensures BriefOk(Next(w, NoteTry(d)), c)
  {
    var w' := Next(w, NoteTry(d));
    forall i: nat ensures Writes(w', i, c) == (Writes(w, i, c) || (c == d && i == |w.notes| < |w'.notes|)) {
      WritesNext(w, NoteTry(d), i, c);
    }
    if c == d && |w'.notes| > |w.notes| {
      assert Writes(w', |w.notes|, c);
    }
  }

  lemma CloseKeepsBrief(w: World, j: nat, o: Outcome, c: Cluster)
    requires Enabled(w, Close(j, o)) && BriefOk(w, c)
    ensures BriefOk(Next(w, Close(j, o)), c)
  {
    var w' := Next(w, Close(j, o));
    forall i: nat ensures Writes(w', i, c) == (Writes(w, i, c) && i != j) {
      WritesNext(w, Close(j, o), i, c);
    }
    if c == w.notes[j].cluster {
      assert Writes(w, j, c);
    }
  }

  lemma StepKeepsBrief(w: World, s: Step, c: Cluster)
    requires Enabled(w, s) && BriefOk(w, c)
    ensures BriefOk(Next(w, s), c)
  {
    if s.NoteTry? {
      NoteTryKeepsBrief(w, s.cluster, c);
    } else if s.Close? {
      CloseKeepsBrief(w, s.note, s.outcome, c);
    } else {
      forall i: nat ensures Writes(Next(w, s), i, c) == Writes(w, i, c) {
        WritesNext(w, s, i, c);
      }
    }
  }

  lemma IsNoteNext(w: World, s: Step, i: nat, c: Cluster)
    requires Enabled(w, s)
    ensures IsNote(Next(w, s), i, c) <==>
            || IsNote(w, i, c)
            || (s.NoteTry? && s.cluster == c && w.active < w.starters[c].limit && i == |w.notes|)
  {
  }

  lemma StepKeepsStops(w: World, s: Step)
    requires StopsOk(w) && Enabled(w, s) && forall c :: BriefOk(w, c)
    ensures StopsOk(Next(w, s))
  {
    forall i: nat, c | IsNote(w, i, c) ensures IsNote(Next(w, s), i, c) {
      IsNoteNext(w, s, i, c);
    }
    if s.Register? {
      assert BriefOk(w, s.cluster);
      assert Writes(w, w.starters[s.cluster].note, s.cluster);
    }
  }

  lemma StepKeepsNewest(w: World, s: Step)
    requires NewestOk(w) && Enabled(w, s) && forall c :: BriefOk(w, c)
    ensures NewestOk(Next(w, s))
  {
    forall i: nat, j: nat, c | Writes(Next(w, s), i, c) && IsNote(Next(w, s), j, c) ensures j <= i {
      WritesNext(w, s, i, c);
      IsNoteNext(w, s, j, c);
      assert BriefOk(w, c);
    }
  }

  lemma StepKeepsInv(w: World, s: Step)
    requires Inv(w) && Enabled(w, s)
    ensures Inv(Next(w, s))
  {
    StepKeepsStops(w, s);
    StepKeepsNewest(w, s);
    StepKeepsLimits(w, s);
    StepKeepsHolders(w, s);
    forall c ensures BriefOk(Next(w, s), c) {
      StepKeepsBrief(w, s, c);
    }
  }

  // ---- Over every run ------------------------------------------------------

  /** The world after a run of steps; a step that is not enabled changes nothing. */
  function After(w: World, steps: seq<Step>): World {
    if steps == [] then w
    else
      var before, s := After(w, steps[..|steps| - 1]), steps[|steps| - 1];
      if Enabled(before, s) then Next(before, s) else before
  }

  lemma {:induction false} RunKeepsInv(steps: seq<Step>)
    ensures Inv(After(NEW_WORLD, steps))
  {
    if steps == [] {
      forall c ensures BriefOk(NEW_WORLD, c) {
        assert BriefOf(NEW_WORLD, c).status == Idle && forall i: nat :: !Writes(NEW_WORLD, i, c);
      }
    } else {
      var before, s := After(NEW_WORLD, steps[..|steps| - 1]), steps[|steps| - 1];
      RunKeepsInv(steps[..|steps| - 1]);
      if Enabled(before, s) {
        StepKeepsInv(before, s);
      }
    }
  }

  /** In every interleaving: the active calls are exactly the slots held, never more than ten, whatever the
      limit is set to meanwhile. */
  lemma ActiveIsHeld(steps: seq<Step>)
    ensures var w := After(NEW_WORLD, steps);
            w.active == |w.held| && 0 <= w.active <= MOST_CALLS
  {
    RunKeepsInv(steps);
  }

  /** In every interleaving: a brief is running exactly while one note of its cluster is before its closing
      section; there is only one such note, and it holds a slot. */
  lemma RunningMeansOneNote(steps: seq<Step>, c: Cluster)
    ensures var w := After(NEW_WORLD, steps);
            && (BriefOf(w, c).status.Running? <==> exists i: nat :: Writes(w, i, c) && NoteOf(i) in w.held)
            && forall i: nat, j: nat :: Writes(w, i, c) && Writes(w, j, c) ==> i == j
  {
    RunKeepsInv(steps);
    var w := After(NEW_WORLD, steps);
    assert BriefOk(w, c);
    if BriefOf(w, c).status.Running? {
      var i: nat :| Writes(w, i, c);
      assert NoteOf(i) in w.held;
    }
  }

  // ---- Which notes can be stopped ------------------------------------------

  predicate Stoppable(w: World, i: nat, c: Cluster) {
    Writes(w, i, c) && c in w.stops && w.stops[c] == i
  }

  /** A running note stops being stoppable exactly by being stopped, by closing, or because an earlier note of
      its cluster takes the newer one's registration away as it leaves. */
  lemma StoppableEndsExactly(w: World, s: Step, i: nat, c: Cluster)
    requires Inv(w) && Enabled(w, s) && Stoppable(w, i, c) && c !in w.starters
    ensures !Stoppable(Next(w, s), i, c) <==>
              || (s.UserPick? && s.cluster == c)
              || (s.Close? && s.note == i)
              || (s.Deregister? && w.notes[s.note].cluster == c)
  {
  }

  function Stage(w: World, s: Step): World {
    if Enabled(w, s) then Next(w, s) else w
  }

  lemma {:induction false} AfterConcat(w: World, a: seq<Step>, b: seq<Step>)
    ensures After(w, a + b) == After(After(w, a), b)
  {
    if b == [] {
      assert a + b == a;
    } else {
      AfterConcat(w, a, b[..|b| - 1]);
      assert (a + b)[..|a + b| - 1] == a + b[..|b| - 1];
    }
  }

  lemma AfterTwo(w: World, s: Step, t: Step)
    ensures After(w, [s, t]) == Stage(Stage(w, s), t)
  {
    assert [s, t][..1] == [s] && [s][..0] == [];
    assert After(w, [s]) == Stage(w, s);
  }

  lemma AfterThree(w: World, s: Step, t: Step, u: Step)
    ensures After(w, [s, t, u]) == Stage(Stage(Stage(w, s), t), u)
  {
    AfterTwo(w, s, t);
    assert [s, t, u][..2] == [s, t];
  }

  const C: Cluster := "c"
  const RUNNING := map[C := Brief(Running, false, false)]

  const FIRST := [NoteSee(C), NoteTry(C), Register(C)]
  const SECOND := [Close(0, Written), NoteSee(C), NoteTry(C)]
  const LAST := [Register(C), Deregister(0)]

  const FIRST_RUNS := World(3, 1, {NoteOf(0)}, map[], RUNNING, map[], [Note(C, Writing)], map[C := 0])
  const SECOND_STARTS := World(3, 2, {NoteOf(0), NoteOf(1)}, map[], RUNNING, map[C := Admitted(1)],
                               [Note(C, Closed), Note(C, Writing)], map[C := 0])

  lemma FirstRuns()
    ensures After(NEW_WORLD, FIRST) == FIRST_RUNS
  {
    AfterThree(NEW_WORLD, NoteSee(C), NoteTry(C), Register(C));
    var w1 := Stage(NEW_WORLD, NoteSee(C));
    assert w1.starters == map[C := Seen(3)];
    var w2 := Stage(w1, NoteTry(C));
    assert w2.notes == [Note(C, Writing)] && w2.briefs == RUNNING && w2.held == {NoteOf(0)};
  }

  lemma SecondStarts()
    ensures After(FIRST_RUNS, SECOND) == SECOND_STARTS
  {
    AfterThree(FIRST_RUNS, Close(0, Written), NoteSee(C), NoteTry(C));
    var w1 := Stage(FIRST_RUNS, Close(0, Written));
    assert w1.notes == [Note(C, Closed)] && w1.briefs == map[C := Brief(Ready, false, false)];
    var w2 := Stage(w1, NoteSee(C));
    assert w2.starters == map[C := Seen(3)];
    var w3 := Stage(w2, NoteTry(C));
    assert w3.notes == [Note(C, Closed), Note(C, Writing)] && w3.briefs == RUNNING && w3.held == {NoteOf(0), NoteOf(1)};
  }

  /** Such a run: a note closes, the next one starts and registers, and the first one's leaving leaves the
      second running with no way to stop it. */
  lemma RunningNoteCannotBeStopped()
    ensures var w := After(NEW_WORLD, (FIRST + SECOND) + LAST);
            Writes(w, 1, C) && BriefOf(w, C).status.Running? && C !in w.stops && C !in w.starters
  {
    FirstRuns();
    SecondStarts();
    AfterConcat(NEW_WORLD, FIRST, SECOND);
    AfterConcat(NEW_WORLD, FIRST + SECOND, LAST);
    AfterTwo(SECOND_STARTS, Register(C), Deregister(0));
  }

  // ---- A note stopped for another ------------------------------------------

  const PICKED := World(3, 1, {NoteOf(0)}, map[7 := Stopping(C, 0)], RUNNING, map[], [Note(C, Writing)], map[])
  const NEXT_STARTS := World(3, 2, {NoteOf(0), NoteOf(1)}, map[7 := Stopping(C, 0)], RUNNING, map[C := Admitted(1)],
                             [Note(C, Closed), Note(C, Writing)], map[])

  lemma NextStarts()
    ensures After(PICKED, SECOND) == NEXT_STARTS
  {
    AfterThree(PICKED, Close(0, Written), NoteSee(C), NoteTry(C));
    var w1 := Stage(PICKED, Close(0, Written));
    assert w1.notes == [Note(C, Closed)] && w1.briefs == map[C := Brief(Ready, false, false)];
    var w2 := Stage(w1, NoteSee(C));
    assert w2.starters == map[C := Seen(3)];
    var w3 := Stage(w2, NoteTry(C));
    assert w3.notes == [Note(C, Closed), Note(C, Writing)] && w3.briefs == RUNNING && w3.held == {NoteOf(0), NoteOf(1)};
  }

  /** A stop of a call that picked note n of cluster c. */
  predicate StopFor(w: World, s: Step, c: Cluster, n: nat) {
    Enabled(w, s) && s.UserStop? && w.users[s.user] == Stopping(c, n)
  }

  /** A stop of a call that picked some note of the cluster. */
  ghost predicate Stops(w: World, s: Step, c: Cluster) {
    exists n: nat :: StopFor(w, s, c, n)
  }

  /** A cluster whose running note was stopped. */
  predicate IsMarked(w: World, c: Cluster) {
    BriefOf(w, c).preempted
  }

  /** A note that would be discarded if it closed now. */
  predicate Marked(w: World, i: nat) {
    i < |w.notes| && w.notes[i].phase.Writing? && IsMarked(w, w.notes[i].cluster)
  }

  /** In every interleaving: a stop marks a note other than the one picked exactly when the picked note is past
      its closing section and a note of the cluster is being written, which is then a later one. */
  lemma StopMarksAnotherExactly(steps: seq<Step>, s: Step, c: Cluster, n: nat)
    requires StopFor(After(NEW_WORLD, steps), s, c, n)
    ensures var w := After(NEW_WORLD, steps);
            && IsNote(w, n, c)
            && ((exists i: nat :: i != n && Writes(w, i, c) && Marked(Next(w, s), i))
                <==> !w.notes[n].phase.Writing? && exists i: nat :: Writes(w, i, c))
            && forall i: nat :: i != n && Writes(w, i, c) ==> n < i
  {
    RunKeepsInv(steps);
    var w := After(NEW_WORLD, steps);
    assert BriefOk(w, c);
    if i: nat :| Writes(w, i, c) {
      assert Marked(Next(w, s), i);
      if w.notes[n].phase.Writing? {
        assert Writes(w, n, c);
      }
    }
  }

  /** The mark on a note being written is set by the stops of its cluster, and by nothing else undone. */
  lemma MarkNext(w: World, s: Step, i: nat, c: Cluster)
    requires BriefOk(w, c) && Enabled(w, s) && Writes(w, i, c)
    ensures IsMarked(Next(w, s), c) <==> IsMarked(w, c) || Stops(w, s, c)
  {
    if s.UserStop? {
      var caller := w.users[s.user];
      assert StopFor(w, s, caller.cluster, caller.note);
    } else {
      OnlyStopsMark(w, s, i, c);
    }
  }

  lemma OnlyStopsMark(w: World, s: Step, i: nat, c: Cluster)
    requires BriefOk(w, c) && Enabled(w, s) && Writes(w, i, c) && !s.UserStop?
    ensures IsMarked(Next(w, s), c) == IsMarked(w, c)
  {
  }

  lemma NotesGrow(w: World, s: Step)
    ensures |w.notes| <= |Stage(w, s).notes|
  {
  }

  function At(steps: seq<Step>, k: nat): World
    requires k <= |steps|
  {
    After(NEW_WORLD, steps[..k])
  }

  lemma AtNext(steps: seq<Step>, k: nat)
    requires k < |steps|
    ensures At(steps, k + 1) == Stage(At(steps, k), steps[k])
  {
    assert steps[..k + 1][..k] == steps[..k];
  }

  /** Step t of a run takes the slot for note i. */
  predicate Begins(steps: seq<Step>, t: nat, i: nat) {
    t < |steps| && |At(steps, t).notes| == i < |At(steps, t + 1).notes|
  }

  lemma {:induction false} NotesStay(steps: seq<Step>, t: nat, k: nat)
    requires t <= k <= |steps|
    ensures |At(steps, t).notes| <= |At(steps, k).notes|
    decreases k
  {
    if t < k {
      NotesStay(steps, t, k - 1);
      AtNext(steps, k - 1);
      NotesGrow(At(steps, k - 1), steps[k - 1]);
    }
  }

  /** Between steps t and k a call stops some note of the cluster. */
  ghost predicate StoppedBetween(steps: seq<Step>, t: nat, k: nat, c: Cluster) {
    exists j: nat :: t < j < k <= |steps| && Stops(At(steps, j), steps[j], c)
  }

  lemma StoppedBetweenNext(steps: seq<Step>, t: nat, k: nat, c: Cluster)
    requires t < k < |steps|
    ensures StoppedBetween(steps, t, k + 1, c) <==>
            StoppedBetween(steps, t, k, c) || Stops(At(steps, k), steps[k], c)
  {
  }

  lemma MarkStage(w: World, s: Step, i: nat, c: Cluster)
    requires BriefOk(w, c) && i < |w.notes| && Writes(Stage(w, s), i, c)
    ensures Writes(w, i, c)
    ensures IsMarked(Stage(w, s), c) <==> IsMarked(w, c) || Stops(w, s, c)
  {
    if Enabled(w, s) {
      WritesNext(w, s, i, c);
      MarkNext(w, s, i, c);
    }
  }

  lemma MarkAt(steps: seq<Step>, k: nat, i: nat, c: Cluster)
    requires k < |steps| && i < |At(steps, k).notes| && Writes(At(steps, k + 1), i, c)
    ensures Writes(At(steps, k), i, c)
    ensures IsMarked(At(steps, k + 1), c) <==> IsMarked(At(steps, k), c) || Stops(At(steps, k), steps[k], c)
  {
    AtNext(steps, k);
    RunKeepsInv(steps[..k]);
    MarkStage(At(steps, k), steps[k], i, c);
  }

  lemma NewNoteUnmarked(w: World, s: Step, c: Cluster)
    requires |w.notes| < |Stage(w, s).notes| && IsNote(Stage(w, s), |w.notes|, c)
    ensures !IsMarked(Stage(w, s), c)
  {
  }

  lemma BegunUnmarked(steps: seq<Step>, t: nat, i: nat, c: Cluster)
    requires Begins(steps, t, i) && IsNote(At(steps, t + 1), i, c)
    ensures !IsMarked(At(steps, t + 1), c)
  {
    AtNext(steps, t);
    NewNoteUnmarked(At(steps, t), steps[t], c);
  }

  /** While a note is written, its mark says whether its cluster was stopped since the note began. */
  lemma {:induction false} MarkedSinceBegun(steps: seq<Step>, t: nat, k: nat, i: nat, c: Cluster)
    requires t < k <= |steps| && Begins(steps, t, i) && Writes(At(steps, k), i, c)
    ensures IsMarked(At(steps, k), c) <==> StoppedBetween(steps, t, k, c)
    decreases k
  {
    if k == t + 1 {
      BegunUnmarked(steps, t, i, c);
    } else {
      NotesStay(steps, t + 1, k - 1);
      MarkAt(steps, k - 1, i, c);
      MarkedSinceBegun(steps, t, k - 1, i, c);
      StoppedBetweenNext(steps, t, k - 1, c);
    }
  }

  /** In every interleaving: a note closes as discarded exactly when, between taking its slot and closing, a
      call stopped its cluster; whichever of the cluster's notes the call had picked. */
  lemma DiscardedExactly(steps: seq<Step>, t: nat, k: nat, i: nat, o: Outcome)
    requires Begins(steps, t, i) && t < k < |steps|
    requires steps[k] == Close(i, o) && Enabled(At(steps, k), steps[k])
    ensures var c := At(steps, k).notes[i].cluster;
            BriefOf(At(steps, k + 1), c).status.Waiting? <==> StoppedBetween(steps, t, k, c)
  {
    var c := At(steps, k).notes[i].cluster;
    MarkedSinceBegun(steps, t, k, i, c);
    AtNext(steps, k);
  }

  /** Such a run: a call picks a note to stop, the note closes by itself, the next one starts, and the stop marks
      the brief: the second note is written to its end and then thrown away, though nobody stopped it. */
  lemma WrittenNoteIsThrownAway()
    ensures var w := After(FIRST_RUNS, ([UserPick(7, C)] + SECOND) + DISCARDED);
            BriefOf(w, C) == Brief(Waiting, true, true) && Writes(After(PICKED, SECOND), 1, C)
  {
    AfterConcat(FIRST_RUNS, [UserPick(7, C)], SECOND);
    Picked();
    NextStarts();
    AfterConcat(FIRST_RUNS, [UserPick(7, C)] + SECOND, DISCARDED);
    Discarded();
  }

  const DISCARDED := [Register(C), UserStop(7), Close(1, Written)]

  lemma Picked()
    ensures After(FIRST_RUNS, [UserPick(7, C)]) == PICKED
  {
    assert [UserPick(7, C)][..0] == [];
    assert Stage(FIRST_RUNS, UserPick(7, C)) == PICKED;
  }

  lemma Discarded()
    ensures BriefOf(After(NEXT_STARTS, DISCARDED), C) == Brief(Waiting, true, true)
  {
    AfterThree(NEXT_STARTS, Register(C), UserStop(7), Close(1, Written));
    var w1 := Stage(NEXT_STARTS, Register(C));
    var w2 := Stage(w1, UserStop(7));
    assert BriefOf(w2, C) == Brief(Running, true, false) && C !in w2.starters;
  }
}
