/** The supervisor of one tunnel (tunnels.go): each critical section is a step, and the theorems hold over
    every interleaving of them. */
module Tunnels {

  datatype State = Stopped | Starting | Running | External | Exited | Failed

  /** The guarded fields. A process is named by the generation that spawned it; cmd is 0 when there is none. */
  datatype Run = Run(state: State, gen: nat, cmd: nat, readyAt: int, keep: bool, restarts: nat)

  /** A reading of the clock: never the zero time. */
  type Instant = t: int | t > 0 witness 1

  /** What the operating system says to a spawn. */
  datatype Outcome = Outcome(pipeOk: bool, execOk: bool)

  const NEW_RUN := Run(Stopped, 0, 0, 0, false, 0)

  const TWO_MINUTES := 120_000_000_000
  const DELAYS := [5, 15, 60]

  predicate Up(r: Run) {
    r.state.Starting? || r.state.Running?
  }

  // ---- What each critical section does to the fields -----------------------

  function Spawned(r: Run, o: Outcome): Run {
    if !o.pipeOk then r
    else if !o.execOk then r.(gen := r.gen + 1, state := Failed)
    else r.(gen := r.gen + 1, cmd := r.gen + 1, state := Starting, readyAt := 0)
  }

  function OnStart(r: Run, keep: bool, found: bool, open: bool, o: Outcome): Run {
    if !found then r
    else
      var k := r.(keep := r.keep || keep);
      if Up(r) || r.state.External? then k
      else if open then k.(restarts := 0, state := External)
      else Spawned(k.(restarts := 0), o)
  }

  function OnReady(r: Run, g: nat, now: Instant): Run {
    if r.gen == g && r.state.Starting? then r.(state := Running, readyAt := now) else r
  }

  function OnTimeout(r: Run, g: nat): Run {
    if r.gen == g && r.state.Starting? then r.(state := Failed) else r
  }

  /** The process a critical section tells to terminate; 0 for none. */
  function TimeoutTells(r: Run, g: nat): nat {
    if r.gen == g && r.state.Starting? then r.cmd else 0
  }

  function OnExit(r: Run, g: nat, now: Instant): Run {
    if r.gen != g then r
    else if r.state.Stopped? then r.(cmd := 0)
    else r.(cmd := 0,
            state := if r.state.Failed? then Failed else Exited,
            restarts := if r.readyAt != 0 && now - r.readyAt > TWO_MINUTES then 0 else r.restarts)
  }

  /** Whether the exit goes on to arm a restart timer. */
  predicate ExitArms(r: Run, g: nat) {
    r.gen == g && !r.state.Stopped? && r.keep && r.readyAt != 0
  }

  predicate FireSpawns(r: Run, g: nat, found: bool, inUse: bool) {
    found && r.gen == g && r.state.Exited? && r.keep && inUse
  }

  function OnFire(r: Run, g: nat, found: bool, inUse: bool, o: Outcome): Run {
    if FireSpawns(r, g, found, inUse) then Spawned(r.(restarts := r.restarts + 1), o) else r
  }

  function OnStop(r: Run): Run {
    r.(keep := false, state := Stopped)
  }

  function StopTells(r: Run): nat {
    if r.state.External? then 0 else r.cmd
  }

  function OnStopAll(r: Run): Run {
    if r.cmd == 0 then r else OnStop(r)
  }

  function Delay(restarts: nat): int {
    DELAYS[if restarts < 2 then restarts else 2]
  }

  function Least(a: nat, b: nat): (m: nat)
    ensures m <= a && m <= b && (m == a || m == b)
  {
    if a <= b then a else b
  }

  class TunnelRun {
    var state: State
    var gen: nat
    var cmd: nat
    var readyAt: int
    var keep: bool
    var restarts: nat

    function View(): Run
      reads this
    {
      Run(state, gen, cmd, readyAt, keep, restarts)
    }

    constructor ()
      ensures View() == NEW_RUN
    {
      state, gen, cmd, readyAt, keep, restarts := Stopped, 0, 0, 0, false, 0;
    }

    method SpawnLocked(o: Outcome) returns (err: bool)
      modifies this
      ensures View() == Spawned(old(View()), o)
      ensures err <==> !Up(View()) || gen == old(gen)
    {
      if !o.pipeOk {
        return true;
      }
      gen := gen + 1;
      if !o.execOk {
        state := Failed;
        return true;
      }
      cmd := gen;
      state := Starting;
      readyAt := 0;
      err := false;
    }

    method Start(keepIt: bool, found: bool, open: bool, o: Outcome) returns (err: bool)
      modifies this
      ensures View() == OnStart(old(View()), keepIt, found, open, o)
      ensures gen > old(gen) <==> found && !open && o.pipeOk && old(state) in {Stopped, Exited, Failed}
      ensures !err ==> Up(View()) || state.External?
    {
      if !found {
        return true;
      }
      if keepIt {
        keep := true;
      }
      match state
      case Starting | Running | External => return false;
      case _ =>
      restarts := 0;
      if open {
        state := External;
        return false;
      }
      err := SpawnLocked(o);
    }

    method MarkReady(g: nat, now: Instant)
      modifies this
      ensures View() == OnReady(old(View()), g, now)
    {
      if gen == g && state == Starting {
        state, readyAt := Running, now;
      }
    }

    method GiveUp(g: nat) returns (tell: nat)
      modifies this
      ensures View() == OnTimeout(old(View()), g) && tell == TimeoutTells(old(View()), g)
    {
      tell := 0;
      if gen == g && state == Starting {
        state := Failed;
        if cmd != 0 {
          tell := cmd;
        }
      }
    }

    method RecordExit(g: nat, now: Instant) returns (arm: bool, delay: int)
      modifies this
      ensures View() == OnExit(old(View()), g, now)
      ensures arm == ExitArms(old(View()), g) && (arm ==> delay == Delay(restarts))
      ensures arm <==> g == old(gen) && old(state) != Stopped && old(keep) && old(readyAt) != 0
      ensures arm && now - old(readyAt) > 120_000_000_000 ==> delay == 5
      ensures arm && now - old(readyAt) <= 120_000_000_000 ==> delay == [5, 15, 60][Least(old(restarts), 2)]
    {
      arm, delay := false, 0;
      if gen != g {
        return;
      }
      cmd := 0;
      if state == Stopped {
        return;
      }
      if state != Failed {
        state := Exited;
      }
      var wasUp := readyAt != 0;
      if wasUp && now - readyAt > TWO_MINUTES {
        restarts := 0;
      }
      if keep && wasUp {
        arm := true;
        delay := DELAYS[if restarts < |DELAYS| - 1 then restarts else |DELAYS| - 1];
      }
    }

    method Fire(g: nat, found: bool, inUse: bool, o: Outcome)
      modifies this
      ensures View() == OnFire(old(View()), g, found, inUse, o)
      ensures gen > old(gen) <==> found && inUse && g == old(gen) && old(state) == Exited && old(keep) && o.pipeOk
    {
      if !found || gen != g || state != Exited || !keep || !inUse {
        return;
      }
      restarts := restarts + 1;
      var _ := SpawnLocked(o);
    }

    method Stop() returns (tell: nat)
      modifies this
      ensures View() == OnStop(old(View())) && tell == StopTells(old(View()))
    {
      tell := 0;
      keep := false;
      if state == External {
        state := Stopped;
      } else if cmd == 0 {
        state := Stopped;
      } else {
        state := Stopped;
        tell := cmd;
      }
    }

    method StopAll() returns (tell: nat)
      modifies this
      ensures View() == OnStopAll(old(View())) && tell == old(cmd)
    {
      tell := cmd;
      if cmd != 0 {
        state, keep := Stopped, false;
      }
    }
  }

  // ---- The world around it -------------------------------------------------

  /** Where the goroutine that waits for a process has got to: the process is alive, it has ended, its exit is
      recorded and a timer about to be armed, the timer is pending, or nothing is left to do. */
  datatype Life = Alive | Dead | Arming | Armed | Gone

  /** One generation: its process, and its readiness watcher. */
  datatype Proc = Proc(life: Life, told: bool, watched: bool, ready: bool)

  /** procs[g] is generation g; generation 0 is none. */
  datatype World = World(run: Run, procs: seq<Proc>)

  const NO_PROC := Proc(Gone, false, false, false)
  const NEW_PROC := Proc(Alive, false, true, false)

  const NEW_WORLD := World(NEW_RUN, [NO_PROC])

  datatype Step =
    | Start(keep: bool, found: bool, open: bool, outcome: Outcome)
    | Look(g: nat)
    | Ready(g: nat, now: Instant)
    | Timeout(g: nat)
    | Die(g: nat)
    | Exit(g: nat, now: Instant)
    | Arm(g: nat, inUse: bool)
    | Fire(g: nat, found: bool, inUse: bool, outcome: Outcome)
    | Stop
    | StopAll

  predicate Has(w: World, g: nat) {
    0 < g < |w.procs|
  }

  /** Which steps a goroutine, a timer or the system can take now. */
  predicate Enabled(w: World, s: Step) {
    match s
    case Look(g) => Has(w, g) && w.procs[g].watched && (w.run.gen != g || !w.run.state.Starting?)
    case Ready(g, _) => Has(w, g) && w.procs[g].watched
    case Timeout(g) => Has(w, g) && w.procs[g].watched
    case Die(g) => Has(w, g) && w.procs[g].life.Alive?
    case Exit(g, _) => Has(w, g) && w.procs[g].life.Dead?
    case Arm(g, _) => Has(w, g) && w.procs[g].life.Arming?
    case Fire(g, _, _, _) => Has(w, g) && w.procs[g].life.Armed?
    case _ => true
  }

  /** A new generation, when the run has one: with a process if it was started. */
  function Extend(w: World, r: Run): World {
    World(r, if r.gen == w.run.gen then w.procs else w.procs + [if r.state.Starting? then NEW_PROC else NO_PROC])
  }

  function Tell(procs: seq<Proc>, g: nat): seq<Proc> {
    if 0 < g < |procs| then procs[g := procs[g].(told := true)] else procs
  }

  function Set(w: World, r: Run, g: nat, p: Proc): World
    requires Has(w, g)
  {
    World(r, w.procs[g := p])
  }

  /** One step; a step that is not enabled changes nothing. */
  function Next(w: World, s: Step): World {
    if !Enabled(w, s) then w
    else match s
    case Start(keep, found, open, o) => Extend(w, OnStart(w.run, keep, found, open, o))
    case Look(g) => Set(w, w.run, g, w.procs[g].(watched := false))
    case Ready(g, now) =>
      var r := OnReady(w.run, g, now);
      Set(w, r, g, w.procs[g].(watched := false, ready := w.procs[g].ready || r != w.run))
    case Timeout(g) =>
      var quiet := w.procs[g := w.procs[g].(watched := false)];
      World(OnTimeout(w.run, g), Tell(quiet, TimeoutTells(w.run, g)))
    case Die(g) => Set(w, w.run, g, w.procs[g].(life := Dead))
    case Exit(g, now) =>
      Set(w, OnExit(w.run, g, now), g, w.procs[g].(life := if ExitArms(w.run, g) then Arming else Gone))
    case Arm(g, inUse) => Set(w, w.run, g, w.procs[g].(life := if inUse then Armed else Gone))
    case Fire(g, found, inUse, o) =>
      Extend(Set(w, w.run, g, w.procs[g].(life := Gone)), OnFire(w.run, g, found, inUse, o))
    case Stop => World(OnStop(w.run), Tell(w.procs, StopTells(w.run)))
    case StopAll => World(OnStopAll(w.run), Tell(w.procs, w.run.cmd))
  }

  /** The world after a run of steps. */
  function After(w: World, steps: seq<Step>): World {
    if steps == [] then w else Next(After(w, steps[..|steps| - 1]), steps[|steps| - 1])
  }

  // ---- The invariant -------------------------------------------------------

  predicate Unreaped(p: Proc) {
    p.life.Alive? || p.life.Dead?
  }

  /** A live process is the current command of a tunnel that is up, or was told to terminate; only a
      generation that was ready arms a timer. */
  ghost predicate ProcOk(r: Run, g: nat, p: Proc) {
    && (p.life.Alive? ==> p.told || (r.cmd == g && Up(r)))
    && (p.life.Arming? || p.life.Armed? ==> p.ready)
    && (0 < g < r.gen && r.cmd == g ==> p.told)
  }

  /** The newest generation: its process is the command until its exit is recorded. */
  ghost predicate NewestOk(r: Run, p: Proc) {
    && (Unreaped(p) <==> r.cmd == r.gen && r.gen > 0)
    && (Unreaped(p) && r.readyAt != 0 ==> p.ready)
    && (Up(r) <==> Unreaped(p) && !p.told)
    && (r.state.Running? ==> r.readyAt != 0)
    && (r.state.Exited? ==> r.cmd == 0)
  }

  ghost predicate Inv(w: World) {
    && |w.procs| == w.run.gen + 1 && w.run.cmd <= w.run.gen && w.procs[0] == NO_PROC
    && NewestOk(w.run, w.procs[w.run.gen])
    && forall g: nat {:trigger w.procs[g]} :: g < |w.procs| ==> ProcOk(w.run, g, w.procs[g])
  }

  lemma NewWorldOk()
    ensures Inv(NEW_WORLD)
  {
  }

  lemma SpawnOk(w: World, r: Run, o: Outcome)
    requires Inv(w) && !Up(w.run) && r == w.run.(keep := r.keep, restarts := r.restarts)
    ensures Inv(Extend(w, Spawned(r, o)))
  {
    var w' := Extend(w, Spawned(r, o));
    forall g: nat | g < |w'.procs| ensures ProcOk(w'.run, g, w'.procs[g]) {
      if g < |w.procs| {
        assert w'.procs[g] == w.procs[g] && ProcOk(w.run, g, w.procs[g]);
      }
    }
  }

  /** Fields change, and one generation at most. */
  lemma SetOk(w: World, r: Run, g: nat, p: Proc)
    requires Inv(w) && g < |w.procs| && r.gen == w.run.gen && r.cmd <= r.gen && (g == 0 ==> p == w.procs[0])
    requires NewestOk(r, if g == r.gen then p else w.procs[r.gen])
    requires ProcOk(r, g, p)
    requires forall h: nat {:trigger ProcOk(w.run, h, w.procs[h])} ::
               h < |w.procs| && h != g && ProcOk(w.run, h, w.procs[h]) ==> ProcOk(r, h, w.procs[h])
    ensures Inv(World(r, w.procs[g := p]))
  {
    var w' := World(r, w.procs[g := p]);
    forall h: nat | h < |w'.procs| ensures ProcOk(w'.run, h, w'.procs[h]) {
      assert ProcOk(w.run, h, w.procs[h]);
    }
  }

  lemma StepKeepsInv(w: World, s: Step)
    requires Inv(w)
    ensures Inv(Next(w, s))
  {
    if Enabled(w, s) {
      match s
      case Start(keep, found, open, o) => StartOk(w, keep, found, open, o);
      case Look(g) => LookOk(w, g);
      case Ready(g, now) => ReadyOk(w, g, now);
      case Timeout(g) => TimeoutOk(w, g);
      case Die(g) => DieOk(w, g);
      case Exit(g, now) => ExitOk(w, g, now);
      case Arm(g, inUse) => ArmOk(w, g, inUse);
      case Fire(g, found, inUse, o) => FireOk(w, g, found, inUse, o);
      case Stop => StopOk(w, StopTells(w.run));
      case StopAll => StopAllOk(w);
    }
  }

  lemma StartOk(w: World, keep: bool, found: bool, open: bool, o: Outcome)
    requires Inv(w)
    ensures Inv(Next(w, Start(keep, found, open, o)))
  {
    var k := w.run.(keep := w.run.keep || keep);
    if found && !Up(w.run) && !w.run.state.External? && !open {
      SpawnOk(w, k.(restarts := 0), o);
    } else {
      SetOk(w, OnStart(w.run, keep, found, open, o), 0, w.procs[0]);
    }
  }

  lemma LookOk(w: World, g: nat)
    requires Inv(w) && Enabled(w, Look(g))
    ensures Inv(Next(w, Look(g)))
  {
    SetOk(w, w.run, g, w.procs[g].(watched := false));
  }

  lemma ReadyOk(w: World, g: nat, now: Instant)
    requires Inv(w) && Enabled(w, Ready(g, now))
    ensures Inv(Next(w, Ready(g, now)))
  {
    var r := OnReady(w.run, g, now);
    SetOk(w, r, g, w.procs[g].(watched := false, ready := w.procs[g].ready || r != w.run));
  }

  lemma TimeoutOk(w: World, g: nat)
    requires Inv(w) && Enabled(w, Timeout(g))
    ensures Inv(Next(w, Timeout(g)))
  {
    var quiet := w.procs[g].(watched := false);
    if TimeoutTells(w.run, g) == 0 {
      SetOk(w, w.run, g, quiet);
    } else {
      assert w.run.cmd == g;
      SetOk(w, OnTimeout(w.run, g), g, quiet.(told := true));
      assert Next(w, Timeout(g)).procs == w.procs[g := quiet.(told := true)];
    }
  }

  lemma DieOk(w: World, g: nat)
    requires Inv(w) && Enabled(w, Die(g))
    ensures Inv(Next(w, Die(g)))
  {
    SetOk(w, w.run, g, w.procs[g].(life := Dead));
  }

  lemma ExitOk(w: World, g: nat, now: Instant)
    requires Inv(w) && Enabled(w, Exit(g, now))
    ensures Inv(Next(w, Exit(g, now)))
  {
    SetOk(w, OnExit(w.run, g, now), g, w.procs[g].(life := if ExitArms(w.run, g) then Arming else Gone));
  }

  lemma ArmOk(w: World, g: nat, inUse: bool)
    requires Inv(w) && Enabled(w, Arm(g, inUse))
    ensures Inv(Next(w, Arm(g, inUse)))
  {
    SetOk(w, w.run, g, w.procs[g].(life := if inUse then Armed else Gone));
  }

  lemma FireOk(w: World, g: nat, found: bool, inUse: bool, o: Outcome)
    requires Inv(w) && Enabled(w, Fire(g, found, inUse, o))
    ensures Inv(Next(w, Fire(g, found, inUse, o)))
  {
    SetOk(w, w.run, g, w.procs[g].(life := Gone));
    if FireSpawns(w.run, g, found, inUse) {
      SpawnOk(Set(w, w.run, g, w.procs[g].(life := Gone)), w.run.(restarts := w.run.restarts + 1), o);
    }
  }

  lemma StopOk(w: World, tell: nat)
    requires Inv(w) && tell == StopTells(w.run)
    ensures Inv(World(OnStop(w.run), Tell(w.procs, tell)))
  {
    if tell == 0 {
      SetOk(w, OnStop(w.run), 0, w.procs[0]);
    } else {
      SetOk(w, OnStop(w.run), tell, w.procs[tell].(told := true));
    }
  }

  lemma StopAllOk(w: World)
    requires Inv(w)
    ensures Inv(Next(w, StopAll))
  {
    if w.run.cmd != 0 {
      SetOk(w, OnStop(w.run), w.run.cmd, w.procs[w.run.cmd].(told := true));
    }
  }

  // ---- Over every run ------------------------------------------------------

  lemma {:induction false} AfterKeepsInv(w: World, steps: seq<Step>)
    requires Inv(w)
    ensures Inv(After(w, steps))
  {
    if steps != [] {
      AfterKeepsInv(w, steps[..|steps| - 1]);
      StepKeepsInv(After(w, steps[..|steps| - 1]), steps[|steps| - 1]);
    }
  }

  lemma {:induction false} AfterConcat(w: World, a: seq<Step>, b: seq<Step>)
    ensures After(w, a + b) == After(After(w, a), b)
  {
    if b == [] {
      assert a + b == a;
    } else {
      AfterConcat(w, a, b[..|b| - 1]);
      assert (a + b)[..|a + b| - 1] == a + b[..|b| - 1];
    }
  }

  /** Whatever happens, in whatever order: a process that is still alive is the one command of a tunnel that
      is up, or was told to terminate. */
  lemma NoStrayProcess(steps: seq<Step>, g: nat)
    requires Has(After(NEW_WORLD, steps), g) && After(NEW_WORLD, steps).procs[g].life.Alive?
    ensures var w := After(NEW_WORLD, steps);
            w.procs[g].told || (Up(w.run) && w.run.cmd == g && g == w.run.gen)
  {
    NewWorldOk();
    AfterKeepsInv(NEW_WORLD, steps);
    var w := After(NEW_WORLD, steps);
    assert ProcOk(w.run, g, w.procs[g]);
  }

  /** A tunnel is starting or running exactly while the newest generation's process has not been told to
      terminate and its exit is not yet recorded; a running one has been ready. */
  lemma UpMeansCurrentProcess(steps: seq<Step>)
    ensures var w := After(NEW_WORLD, steps);
            && |w.procs| == w.run.gen + 1
            && (Up(w.run) <==> Unreaped(w.procs[w.run.gen]) && !w.procs[w.run.gen].told)
            && (Up(w.run) ==> w.run.cmd == w.run.gen > 0)
            && (w.run.state.Running? ==> w.procs[w.run.gen].ready)
            && (w.run.state.Exited? ==> w.run.cmd == 0)
  {
    NewWorldOk();
    AfterKeepsInv(NEW_WORLD, steps);
  }

  predicate NoStart(steps: seq<Step>) {
    forall i :: 0 <= i < |steps| ==> !steps[i].Start?
  }

  /** Stopped for good: only a start changes it. */
  predicate Quiet(r: Run) {
    r.state.Stopped? && !r.keep
  }

  lemma QuietStep(w: World, s: Step)
    requires Quiet(w.run) && !s.Start?
    ensures Quiet(Next(w, s).run) && Next(w, s).run.gen == w.run.gen && |Next(w, s).procs| == |w.procs|
  {
  }

  lemma {:induction false} QuietStays(w: World, steps: seq<Step>)
    requires Quiet(w.run) && NoStart(steps)
    ensures var w' := After(w, steps);
            Quiet(w'.run) && w'.run.gen == w.run.gen && |w'.procs| == |w.procs|
  {
    if steps != [] {
      QuietStays(w, steps[..|steps| - 1]);
      QuietStep(After(w, steps[..|steps| - 1]), steps[|steps| - 1]);
    }
  }

  /** After a stop, until the next start: the tunnel stays stopped, nothing is spawned, and every process
      still alive was told to terminate. */
  lemma StopIsFinal(before: seq<Step>, after: seq<Step>)
    requires NoStart(after)
    ensures var w, w' := After(NEW_WORLD, before), After(NEW_WORLD, before + ([Stop] + after));
            && w'.run.state.Stopped? && |w'.procs| == |w.procs|
            && forall g: nat :: Has(w', g) && w'.procs[g].life.Alive? ==> w'.procs[g].told
  {
    var w := After(NEW_WORLD, before);
    NewWorldOk();
    AfterKeepsInv(NEW_WORLD, before);
    AfterConcat(NEW_WORLD, before, [Stop] + after);
    AfterConcat(w, [Stop], after);
    AfterOne(w, Stop);
    QuietStays(Next(w, Stop), after);
    forall g: nat | Has(After(NEW_WORLD, before + ([Stop] + after)), g)
        && After(NEW_WORLD, before + ([Stop] + after)).procs[g].life.Alive?
      ensures After(NEW_WORLD, before + ([Stop] + after)).procs[g].told
    {
      NoStrayProcess(before + ([Stop] + after), g);
    }
  }

  lemma AfterOne(w: World, s: Step)
    ensures After(w, [s]) == Next(w, s)
  {
    assert [s][..|[s]| - 1] == [];
    assert After(w, []) == w;
  }

  // ---- Automatic restarts --------------------------------------------------

  lemma StepGrows(w: World, s: Step)
    requires Inv(w)
    ensures w.run.gen <= Next(w, s).run.gen <= w.run.gen + 1
    ensures Next(w, s).run.gen > w.run.gen ==>
        s.Start? || (s.Fire? && Enabled(w, s) && FireSpawns(w.run, s.g, s.found, s.inUse))
  {
  }

  lemma {:induction false} GenGrows(w: World, steps: seq<Step>)
    requires Inv(w)
    ensures w.run.gen <= After(w, steps).run.gen
  {
    if steps != [] {
      GenGrows(w, steps[..|steps| - 1]);
      AfterKeepsInv(w, steps[..|steps| - 1]);
      StepGrows(After(w, steps[..|steps| - 1]), steps[|steps| - 1]);
    }
  }

  /** The timer of an older generation never takes effect again; so of all pending timers at most one, the
      newest generation's, still can. */
  lemma OldTimersAreDead(w: World, g: nat, h: nat, steps: seq<Step>, found: bool, inUse: bool, o: Outcome)
    requires Inv(w) && Has(w, g) && Has(w, h) && w.procs[g].life.Armed? && w.procs[h].life.Armed? && g < h
    ensures OnFire(After(w, steps).run, g, found, inUse, o) == After(w, steps).run
  {
    GenGrows(w, steps);
  }

  /** The step that made generation g ready. */
  ghost predicate ReadyAt(steps: seq<Step>, i: nat, g: nat)
    requires i < |steps|
  {
    var w := After(NEW_WORLD, steps[..i]);
    steps[i].Ready? && steps[i].g == g && Enabled(w, steps[i]) && w.run.gen == g && w.run.state.Starting?
  }

  lemma ReadyStep(w: World, s: Step, g: nat)
    requires Inv(w) && Has(Next(w, s), g) && Next(w, s).procs[g].ready
    ensures (Has(w, g) && w.procs[g].ready)
        || (s.Ready? && s.g == g && Enabled(w, s) && w.run.gen == g && w.run.state.Starting?)
  {
  }

  lemma {:induction false} ReadyHappened(steps: seq<Step>, g: nat) returns (i: nat)
    requires Has(After(NEW_WORLD, steps), g) && After(NEW_WORLD, steps).procs[g].ready
    ensures i < |steps| && ReadyAt(steps, i, g)
  {
    NewWorldOk();
    if steps != [] {
      var front := steps[..|steps| - 1];
      var w := After(NEW_WORLD, front);
      AfterKeepsInv(NEW_WORLD, front);
      ReadyStep(w, steps[|steps| - 1], g);
      if Has(w, g) && w.procs[g].ready {
        i := ReadyHappened(front, g);
        assert front[..i] == steps[..i];
      } else {
        i := |steps| - 1;
      }
    }
  }

  /** A tunnel is restarted by itself only when the very generation that ended had been ready, and only while
      it is to be kept. */
  lemma RestartsOnlyWhatWasReady(steps: seq<Step>, s: Step)
    requires !s.Start? && After(NEW_WORLD, steps + [s]).run.gen > After(NEW_WORLD, steps).run.gen
    ensures var r := After(NEW_WORLD, steps).run;
            && s.Fire? && s.g == r.gen && r.state.Exited? && r.keep
            && exists i :: 0 <= i < |steps| && ReadyAt(steps, i, r.gen)
  {
    var w := After(NEW_WORLD, steps);
    NewWorldOk();
    AfterKeepsInv(NEW_WORLD, steps);
    AfterConcat(NEW_WORLD, steps, [s]);
    AfterOne(w, s);
    StepGrows(w, s);
    assert ProcOk(w.run, s.g, w.procs[s.g]);
    var i := ReadyHappened(steps, s.g);
  }

  // ---- Shutting down -------------------------------------------------------

  /** Something is spawned without another start. */
  ghost predicate Respawns(w: World) {
    exists steps :: NoStart(steps) && After(w, steps).run.gen > w.run.gen
  }

  /** The tunnel dropped and its restart is on its way. */
  predicate RestartPending(w: World)
    requires |w.procs| == w.run.gen + 1
  {
    var life := w.procs[w.run.gen].life;
    w.run.cmd == 0 && w.run.state.Exited? && w.run.keep && (life.Arming? || life.Armed?)
  }

  /** No command, and no restart on its way. */
  ghost predicate Settled(w: World) {
    Inv(w) && w.run.cmd == 0 && !RestartPending(w)
  }

  lemma SettledStep(w: World, s: Step)
    requires Settled(w) && !s.Start?
    ensures Settled(Next(w, s)) && Next(w, s).run.gen == w.run.gen
  {
    StepKeepsInv(w, s);
  }

  lemma {:induction false} SettledStays(w: World, steps: seq<Step>)
    requires Settled(w) && NoStart(steps)
    ensures Settled(After(w, steps)) && After(w, steps).run.gen == w.run.gen
  {
    if steps != [] {
      SettledStays(w, steps[..|steps| - 1]);
      SettledStep(After(w, steps[..|steps| - 1]), steps[|steps| - 1]);
    }
  }

  lemma PendingRespawns(w: World)
    requires Inv(w) && RestartPending(w)
    ensures Respawns(w)
  {
    var g := w.run.gen;
    var ok := Outcome(true, true);
    var arm, fire := Arm(g, true), Fire(g, true, true, ok);
    AfterOne(w, fire);
    if w.procs[g].life.Armed? {
      assert NoStart([fire]) && After(w, [fire]).run.gen == g + 1;
    } else {
      var armed := Next(w, arm);
      AfterConcat(w, [arm], [fire]);
      AfterOne(w, arm);
      AfterOne(armed, fire);
      assert NoStart([arm] + [fire]) && After(w, [arm] + [fire]).run.gen == g + 1;
    }
  }

  /** Stopping every tunnel at exit skips one without a process, and so a tunnel whose restart is already on
      its way may still come back: exactly such a tunnel. */
  lemma ShutdownLeavesRespawnExactly(w: World)
    requires Inv(w)
    ensures Respawns(Next(w, StopAll)) <==> RestartPending(w)
  {
    var w' := Next(w, StopAll);
    StepKeepsInv(w, StopAll);
    if RestartPending(w) {
      assert w' == w;
      PendingRespawns(w);
    } else if w.run.cmd == 0 {
      forall steps | NoStart(steps) ensures After(w', steps).run.gen == w'.run.gen {
        SettledStays(w', steps);
      }
    } else {
      forall steps | NoStart(steps) ensures After(w', steps).run.gen == w'.run.gen {
        QuietStays(w', steps);
      }
    }
  }

  const OK := Outcome(true, true)
  const DROPPED := [Start(true, true, false, OK), Ready(1, 1), Die(1), Exit(1, 2)]

  /** Such a run: a tunnel that was running drops, everything is stopped, and five seconds later it is
      started again. */
  lemma ShutdownCanBeUndone()
    ensures After(NEW_WORLD, DROPPED + [StopAll, Arm(1, true), Fire(1, true, true, OK)]).run
            == Run(Starting, 2, 2, 0, true, 1)
  {
    var w1 := Next(NEW_WORLD, Start(true, true, false, OK));
    var w2 := Next(w1, Ready(1, 1));
    var w3 := Next(w2, Die(1));
    var w4 := Next(w3, Exit(1, 2));
    AfterFour(NEW_WORLD, DROPPED);
    assert w4.run == Run(Exited, 1, 0, 1, true, 0) && w4.procs[1].life.Arming?;
    AfterThree(w4, [StopAll, Arm(1, true), Fire(1, true, true, OK)]);
    AfterConcat(NEW_WORLD, DROPPED, [StopAll, Arm(1, true), Fire(1, true, true, OK)]);
  }

  lemma AfterThree(w: World, s: seq<Step>)
    requires |s| == 3
    ensures After(w, s) == Next(Next(Next(w, s[0]), s[1]), s[2])
  {
    assert s[..2][..1] == [s[0]] && s[..2][1] == s[1];
    AfterOne(w, s[0]);
  }

  lemma AfterFour(w: World, s: seq<Step>)
    requires |s| == 4
    ensures After(w, s) == Next(Next(Next(Next(w, s[0]), s[1]), s[2]), s[3])
  {
    AfterThree(w, s[..3]);
  }

  // ---- Two surprises -------------------------------------------------------

  /** A tunnel found already open stops counting as such only when it is stopped, or when the exit of an
      earlier process of the same generation is recorded: then it reads exited though the port was never
      that process's. */
  lemma ExternalEndsExactly(w: World, s: Step)
    requires Inv(w) && w.run.state.External?
    ensures Next(w, s).run.state != External <==>
            s.Stop? || (s.StopAll? && w.run.cmd != 0) || (s.Exit? && Enabled(w, s) && s.g == w.run.gen)
  {
  }

  /** A stop tells a process that is already gone exactly when the tunnel still has the command of an earlier
      generation and that process is gone: a later spawn failed, so its exit never cleared the command. The
      process had been told before, and the tunnel is not up. */
  lemma StopTellsGoneProcess(w: World)
    requires Inv(w)
    ensures StopTells(w.run) > 0 && !Unreaped(w.procs[w.run.cmd]) <==>
            !w.run.state.External? && 0 < w.run.cmd < w.run.gen && !Unreaped(w.procs[w.run.cmd])
    ensures StopTells(w.run) > 0 && !Unreaped(w.procs[w.run.cmd]) ==> w.procs[w.run.cmd].told && !Up(w.run)
  {
    if w.run.cmd > 0 {
      assert ProcOk(w.run, w.run.cmd, w.procs[w.run.cmd]);
    }
  }

  const SPOILED := [Start(false, true, false, OK), Stop, Start(false, true, false, Outcome(true, false)), Die(1)]

  lemma StopCanTellGoneProcess()
    ensures var w := After(NEW_WORLD, SPOILED + [Exit(1, 2)]);
            StopTells(w.run) == 1 && Has(w, 1) && w.procs[1].life.Gone?
  {
    var w1 := Next(NEW_WORLD, Start(false, true, false, OK));
    var w2 := Next(w1, Stop);
    var w3 := Next(w2, Start(false, true, false, Outcome(true, false)));
    var w4 := Next(w3, Die(1));
    assert w4.run.gen == 2 && w4.run.cmd == 1 && w4.procs[1].life.Dead?;
    AfterFour(NEW_WORLD, SPOILED);
    AfterConcat(NEW_WORLD, SPOILED, [Exit(1, 2)]);
    AfterOne(w4, Exit(1, 2));
  }
}
