/** Runs of one tunnel, told by their steps alone (tunnels.go): when a process is spawned, when a tunnel is kept, when
    and after how long a dropped one is started again. */
module TunnelLaws {
  import opened Tunnels

  // ---- Spawning ------------------------------------------------------------

  /** A start that finds its tunnel down. */
  ghost predicate StartsAnew(w: World, s: Step) {
    s.Start? && s.found && w.run.state in {Stopped, Exited, Failed}
  }

  /** The timer of a current, kept tunnel that has dropped, while a watched cluster goes through it. */
  ghost predicate ComesBack(w: World, s: Step) {
    && s.Fire? && Has(w, s.g) && w.procs[s.g].life.Armed? && s.g == w.run.gen
    && w.run.state == Exited && w.run.keep && s.found && s.inUse
  }

  /** A generation is added exactly by a start of a tunnel that is down and whose port is shut, and by a restart; each
      fails without a pipe. */
  lemma SpawnsExactly(w: World, s: Step)
    ensures Next(w, s).run.gen > w.run.gen <==>
            || (StartsAnew(w, s) && !s.open && s.outcome.pipeOk)
            || (ComesBack(w, s) && s.outcome.pipeOk)
    ensures Next(w, s).run.gen <= w.run.gen + 1
  {
  }

  /** In any run, nothing but a start or such a restart adds a process; and such a restart does. */
  lemma RestartsExactly(steps: seq<Step>, s: Step)
    requires !s.Start?
    ensures After(NEW_WORLD, steps + [s]).run.gen > After(NEW_WORLD, steps).run.gen <==>
            ComesBack(After(NEW_WORLD, steps), s) && s.outcome.pipeOk
  {
    AfterConcat(NEW_WORLD, steps, [s]);
    AfterOne(After(NEW_WORLD, steps), s);
    SpawnsExactly(After(NEW_WORLD, steps), s);
  }

  // ---- States --------------------------------------------------------------

  /** How each state begins. */
  lemma BeginsExactly(w: World, s: Step)
    ensures var r, r' := w.run, Next(w, s).run;
            && (r'.state.Stopped? && !r.state.Stopped? <==>
                !r.state.Stopped? && (s.Stop? || (s.StopAll? && r.cmd != 0)))
            && (r'.state.External? && !r.state.External? <==> StartsAnew(w, s) && s.open)
            && (r'.state.Starting? && !r.state.Starting? <==>
                ((StartsAnew(w, s) && !s.open) || ComesBack(w, s)) && s.outcome == Outcome(true, true))
            && (r'.state.Running? && !r.state.Running? <==>
                s.Ready? && Has(w, s.g) && w.procs[s.g].watched && s.g == r.gen && r.state.Starting?)
            && (r'.state.Exited? && !r.state.Exited? <==>
                s.Exit? && Has(w, s.g) && w.procs[s.g].life.Dead? && s.g == r.gen
                && r.state in {Starting, Running, External})
            && (r'.state.Failed? && !r.state.Failed? <==>
                || (s.Timeout? && Has(w, s.g) && w.procs[s.g].watched && s.g == r.gen && r.state.Starting?)
                || (!r.state.Failed? && ((StartsAnew(w, s) && !s.open) || ComesBack(w, s))
                    && s.outcome == Outcome(true, false)))
  {
  }

  /** In any run, a process is told to terminate exactly when its tunnel did not open in time, is stopped, or
      everything is: and then it is the tunnel's command. */
  lemma ToldExactly(w: World, s: Step, g: nat)
    requires Inv(w) && Has(w, g) && !w.procs[g].told
    ensures Next(w, s).procs[g].told <==>
            && w.run.cmd == g
            && (|| s.StopAll? || (s.Stop? && w.run.state != External)
                || (s.Timeout? && Has(w, s.g) && w.procs[s.g].watched && s.g == w.run.gen && w.run.state.Starting?))
  {
    assert ProcOk(w.run, g, w.procs[g]);
  }

  // ---- Keeping -------------------------------------------------------------

  /** Step i asks to keep the tunnel, and nothing since has stopped it. */
  ghost predicate KeptSince(steps: seq<Step>, i: nat)
    requires i < |steps|
  {
    && steps[i].Start? && steps[i].found && steps[i].keep
    && forall j: nat :: i < j < |steps| ==> !Stops(steps, j)
  }

  ghost predicate Stops(steps: seq<Step>, j: nat)
    requires j < |steps|
  {
    steps[j].Stop? || (steps[j].StopAll? && After(NEW_WORLD, steps[..j]).run.cmd != 0)
  }

  lemma StopsInFront(steps: seq<Step>, j: nat)
    requires j < |steps| - 1
    ensures Stops(steps[..|steps| - 1], j) == Stops(steps, j)
  {
    assert steps[..|steps| - 1][..j] == steps[..j];
  }

  /** A tunnel is kept exactly when a start that found its definition asked for that and nothing stopped it since. */
  lemma {:induction false} KeptExactly(steps: seq<Step>)
    ensures After(NEW_WORLD, steps).run.keep <==> exists i: nat :: i < |steps| && KeptSince(steps, i)
  {
    if steps != [] {
      var last := |steps| - 1;
      var front := steps[..last];
      KeptExactly(front);
      forall i: nat | i < last ensures KeptSince(steps, i) <==> KeptSince(front, i) && !Stops(steps, last) {
        KeptInFront(steps, i);
      }
      if After(NEW_WORLD, front).run.keep {
        var i: nat :| i < |front| && KeptSince(front, i);
        assert !Stops(steps, last) ==> KeptSince(steps, i);
      }
      assert KeptSince(steps, last) <==> steps[last].Start? && steps[last].found && steps[last].keep;
      KeepStep(After(NEW_WORLD, front), steps[last]);
    }
  }

  lemma KeptInFront(steps: seq<Step>, i: nat)
    requires i < |steps| - 1
    ensures KeptSince(steps, i) <==> KeptSince(steps[..|steps| - 1], i) && !Stops(steps, |steps| - 1)
  {
    var front := steps[..|steps| - 1];
    forall j: nat | i < j < |front| ensures Stops(front, j) == Stops(steps, j) {
      StopsInFront(steps, j);
    }
    assert front[i] == steps[i];
  }

  lemma KeepStep(w: World, s: Step)
    ensures Next(w, s).run.keep <==>
            if s.Stop? || (s.StopAll? && w.run.cmd != 0) then false
            else w.run.keep || (s.Start? && s.found && s.keep)
  {
  }

  // ---- Restarting ----------------------------------------------------------

  /** The exit of a tunnel's current process more than two minutes after step i made it ready. */
  ghost predicate LongUp(steps: seq<Step>, i: nat, g: nat, now: Instant) {
    i < |steps| && ReadyAt(steps, i, g) && now - steps[i].now > 120_000_000_000
  }

  /** The exit of the current process is recorded, after more than two minutes up. */
  ghost predicate DropsLate(steps: seq<Step>, s: Step) {
    var w := After(NEW_WORLD, steps);
    s.Exit? && Enabled(w, s) && s.g == w.run.gen && w.run.state != Stopped
        && exists i: nat :: LongUp(steps, i, s.g, s.now)
  }

  /** How many automatic restarts there were since the last start from down, or the last drop after more than two
      minutes up. */
  ghost function Tries(steps: seq<Step>): nat {
    if steps == [] then 0
    else
      var front, s := steps[..|steps| - 1], steps[|steps| - 1];
      if StartsAnew(After(NEW_WORLD, front), s) || DropsLate(front, s) then 0
      else if !s.Start? && After(NEW_WORLD, steps).run.gen > After(NEW_WORLD, front).run.gen then Tries(front) + 1
      else Tries(front)
  }

  lemma ReadyInFront(steps: seq<Step>, i: nat, g: nat)
    requires i < |steps| - 1
    ensures ReadyAt(steps[..|steps| - 1], i, g) == ReadyAt(steps, i, g)
  {
    assert steps[..|steps| - 1][..i] == steps[..i];
  }

  lemma ReadyBefore(steps: seq<Step>, i: nat, g: nat)
    requires i < |steps| && ReadyAt(steps, i, g)
    ensures g <= After(NEW_WORLD, steps).run.gen
  {
    NewWorldOk();
    AfterKeepsInv(NEW_WORLD, steps[..i]);
    AfterConcat(NEW_WORLD, steps[..i], steps[i..]);
    assert steps == steps[..i] + steps[i..];
    GenGrows(After(NEW_WORLD, steps[..i]), steps[i..]);
  }

  /** The tunnel remembers when its current process became ready. */
  lemma {:induction false} ReadyRemembered(steps: seq<Step>, i: nat)
    requires i < |steps| && ReadyAt(steps, i, After(NEW_WORLD, steps).run.gen)
    ensures var r := After(NEW_WORLD, steps).run; r.readyAt == steps[i].now && !r.state.Starting?
  {
    var last := |steps| - 1;
    var front := steps[..last];
    var w, w' := After(NEW_WORLD, front), After(NEW_WORLD, steps);
    if i < last {
      ReadyInFront(steps, i, w'.run.gen);
      ReadyBefore(front, i, w'.run.gen);
      ReadyRemembered(front, i);
      SameGeneration(w, steps[last]);
    }
  }

  lemma SameGeneration(w: World, s: Step)
    requires Next(w, s).run.gen <= w.run.gen && !w.run.state.Starting?
    ensures Next(w, s).run.readyAt == w.run.readyAt && !Next(w, s).run.state.Starting?
  {
  }

  /** While the newest process is about, the tunnel knows since when it is ready, if it is. */
  lemma ReadyTime(steps: seq<Step>)
    requires var w := After(NEW_WORLD, steps); w.run.gen < |w.procs| && Unreaped(w.procs[w.run.gen])
    ensures var r := After(NEW_WORLD, steps).run;
            && (r.readyAt != 0 <==> exists i: nat :: i < |steps| && ReadyAt(steps, i, r.gen))
            && forall i: nat :: i < |steps| && ReadyAt(steps, i, r.gen) ==> steps[i].now == r.readyAt
  {
    var w := After(NEW_WORLD, steps);
    NewWorldOk();
    AfterKeepsInv(NEW_WORLD, steps);
    forall i: nat | i < |steps| && ReadyAt(steps, i, w.run.gen) ensures steps[i].now == w.run.readyAt {
      ReadyRemembered(steps, i);
    }
    if w.run.readyAt != 0 {
      var i := ReadyHappened(steps, w.run.gen);
    }
  }

  /** The exit of the current process resets the count of restarts exactly when it had been up that long. */
  lemma LateExactly(steps: seq<Step>, s: Step)
    requires var w := After(NEW_WORLD, steps); s.Exit? && Enabled(w, s) && s.g == w.run.gen
    ensures var r := After(NEW_WORLD, steps).run;
            && (r.readyAt != 0 <==> exists i: nat :: i < |steps| && ReadyAt(steps, i, r.gen))
            && (r.readyAt != 0 && s.now - r.readyAt > 120_000_000_000 <==>
                exists i: nat :: LongUp(steps, i, s.g, s.now))
  {
    var r := After(NEW_WORLD, steps).run;
    ReadyTime(steps);
    if r.readyAt != 0 && s.now - r.readyAt > 120_000_000_000 {
      var i: nat :| i < |steps| && ReadyAt(steps, i, r.gen);
      assert LongUp(steps, i, s.g, s.now);
    }
  }

  /** While the newest process is about, the tunnel knows its number of automatic restarts. */
  ghost predicate Counted(w: World, tries: nat) {
    w.run.gen < |w.procs| && (w.procs[w.run.gen].life.Gone? || w.run.restarts == tries)
  }

  lemma {:induction false} TriesCounted(steps: seq<Step>)
    ensures Counted(After(NEW_WORLD, steps), Tries(steps))
  {
    if steps != [] {
      var front, s := steps[..|steps| - 1], steps[|steps| - 1];
      var w := After(NEW_WORLD, front);
      TriesCounted(front);
      NewWorldOk();
      AfterKeepsInv(NEW_WORLD, front);
      if s.Exit? && Enabled(w, s) && s.g == w.run.gen {
        LateExactly(front, s);
      }
      CountStep(w, s, Tries(front), DropsLate(front, s));
    }
  }

  lemma CountStep(w: World, s: Step, tries: nat, late: bool)
    requires Inv(w) && Counted(w, tries)
    requires late ==> s.Exit? && Enabled(w, s) && s.g == w.run.gen && w.run.state != Stopped
    requires s.Exit? && Enabled(w, s) && s.g == w.run.gen && w.run.state != Stopped ==>
               (late <==> w.run.readyAt != 0 && s.now - w.run.readyAt > 120_000_000_000)
    ensures Counted(Next(w, s), if StartsAnew(w, s) || late then 0
                                else if !s.Start? && Next(w, s).run.gen > w.run.gen then tries + 1 else tries)
  {
    SpawnsExactly(w, s);
  }

  /** In any run, when an exit is recorded: a restart is set going exactly for a kept, current tunnel that is not
      stopped and whose process had been ready; */
  lemma ArmsExactly(steps: seq<Step>, g: nat, now: Instant)
    requires Enabled(After(NEW_WORLD, steps), Exit(g, now))
    ensures var w := After(NEW_WORLD, steps);
            Next(w, Exit(g, now)).procs[g].life.Arming? <==>
            && g == w.run.gen && w.run.state != Stopped && w.run.keep
            && exists i: nat :: i < |steps| && ReadyAt(steps, i, g)
  {
    if g == After(NEW_WORLD, steps).run.gen {
      ReadyTime(steps);
    }
  }

  /** and its delay is five seconds after more than two minutes up, and otherwise that of the number of automatic
      restarts since the last start or the last such drop: five seconds, fifteen, and then a minute each. */
  lemma DelayExactly(steps: seq<Step>, g: nat, now: Instant)
    requires var w := After(NEW_WORLD, steps);
             Enabled(w, Exit(g, now)) && Next(w, Exit(g, now)).procs[g].life.Arming?
    ensures var d, n := Delay(Next(After(NEW_WORLD, steps), Exit(g, now)).run.restarts), Tries(steps);
            d == if (exists i: nat :: LongUp(steps, i, g, now)) || n == 0 then 5 else if n == 1 then 15 else 60
  {
    TriesCounted(steps);
    LateExactly(steps, Exit(g, now));
  }
}
