/** Slots and notes, told by the steps of a run (settings.go, brief.go): who takes a slot and when, and how each
    state of
    a cluster's note begins. */
module SlotLaws {
  import opened Slots

  // ---- Taking and giving back ----------------------------------------------

  /** A user's call that has read the limit tries for a slot, and fewer are active than it read. */
  ghost predicate UserTakes(w: World, s: Step) {
    s.UserTry? && s.user in w.users && w.users[s.user].Saw? && w.active < w.users[s.user].limit
  }

  /** A note about to start does. */
  ghost predicate NoteTakes(w: World, s: Step) {
    s.NoteTry? && s.cluster in w.starters && w.starters[s.cluster].Seen? && w.active < w.starters[s.cluster].limit
  }

  /** A slot is taken exactly so, and given back exactly by a call that holds one or a note on its way out. */
  lemma TakesExactly(w: World, s: Step)
    requires Enabled(w, s)
    ensures Next(w, s).active > w.active <==> UserTakes(w, s) || NoteTakes(w, s)
    ensures Next(w, s).active < w.active <==> s.UserRelease? || s.Release?
    ensures w.active - 1 <= Next(w, s).active <= w.active + 1
  {
  }

  /** The last time before now that the user's call read the limit. */
  ghost predicate LastSees(steps: seq<Step>, t: nat, u: nat) {
    && t < |steps| && steps[t] == UserSee(u) && Enabled(At(steps, t), steps[t])
    && forall j :: t < j < |steps| ==> !(steps[j] == UserSee(u) && Enabled(At(steps, j), steps[j]))
  }

  lemma SeeInFront(steps: seq<Step>, t: nat, u: nat)
    requires t < |steps| - 1
    ensures LastSees(steps, t, u) <==>
            LastSees(steps[..|steps| - 1], t, u)
            && !(steps[|steps| - 1] == UserSee(u) && Enabled(At(steps, |steps| - 1), steps[|steps| - 1]))
  {
    var front := steps[..|steps| - 1];
    forall j: nat | j <= |front| ensures At(front, j) == At(steps, j) {
      assert front[..j] == steps[..j];
    }
  }

  lemma SawStays(w: World, s: Step, u: nat)
    requires u in Stage(w, s).users && Stage(w, s).users[u].Saw?
    ensures if s == UserSee(u) && Enabled(w, s) then Stage(w, s).users[u].limit == w.maxCalls
            else u in w.users && w.users[u] == Stage(w, s).users[u]
  {
  }

  /** A call that is about to try for a slot goes by the limit as it was when it read it. */
  lemma {:induction false} SawLimit(steps: seq<Step>, u: nat) returns (t: nat)
    requires var w := After(NEW_WORLD, steps); u in w.users && w.users[u].Saw?
    ensures LastSees(steps, t, u) && After(NEW_WORLD, steps).users[u].limit == At(steps, t).maxCalls
  {
    if steps == [] {
      assert false;
    } else {
      var n := |steps| - 1;
      var front := steps[..n];
      var w := After(NEW_WORLD, front);
      assert At(steps, n) == w && After(NEW_WORLD, steps) == Stage(w, steps[n]);
      SawStays(w, steps[n], u);
      if steps[n] == UserSee(u) && Enabled(w, steps[n]) {
        t := n;
      } else {
        t := SawLimit(front, u);
        SeeInFront(steps, t, u);
        assert front[..t] == steps[..t];
      }
    }
  }

  /** In every interleaving: a user's call takes a slot exactly when fewer are active than the limit was when the call
      last read it, whatever the limit has become since. */
  lemma UserAdmittedExactly(steps: seq<Step>, u: nat)
    requires Enabled(After(NEW_WORLD, steps), UserTry(u))
    ensures var w := After(NEW_WORLD, steps);
            && (exists t :: LastSees(steps, t, u))
            && forall t :: LastSees(steps, t, u) ==>
                 (User(u) in Next(w, UserTry(u)).held <==> w.active < At(steps, t).maxCalls)
  {
    var w := After(NEW_WORLD, steps);
    RunKeepsInv(steps);
    var t := SawLimit(steps, u);
    assert User(u) !in w.held;
    forall t' | LastSees(steps, t', u) ensures t' == t {
    }
  }

  // ---- A cluster's note ----------------------------------------------------

  /** How each state of a cluster's note begins: it runs when it gets a slot, and waits when it gets none or was
      stopped; otherwise it is ready when written, and an error when that failed. */
  lemma BriefBeginsExactly(w: World, s: Step, c: Cluster)
    requires Enabled(w, s)
    ensures var b, b' := BriefOf(w, c), BriefOf(Next(w, s), c);
            var closes := s.Close? && w.notes[s.note].cluster == c;
            && (b'.status.Running? && !b.status.Running? <==>
                !b.status.Running? && s.NoteTry? && s.cluster == c && NoteTakes(w, s))
            && (b'.status.Waiting? && !b.status.Waiting? <==>
                !b.status.Waiting? && ((s.NoteTry? && s.cluster == c && !NoteTakes(w, s)) || (closes && b.preempted)))
            && (b'.status.Ready? && !b.status.Ready? <==>
                !b.status.Ready? && closes && !b.preempted && s.outcome.Written?)
            && (b'.status.Error? && !b.status.Error? <==>
                !b.status.Error? && closes && !b.preempted && s.outcome.Failed?)
  {
  }

  /** A stop marks its cluster's note, closing a marked one asks for another, and getting a slot clears both. */
  lemma MarksExactly(w: World, s: Step, c: Cluster)
    requires Enabled(w, s)
    ensures var b, b' := BriefOf(w, c), BriefOf(Next(w, s), c);
            var starts := s.NoteTry? && s.cluster == c && NoteTakes(w, s);
            var closes := s.Close? && w.notes[s.note].cluster == c;
            && (b'.force <==> (b.force && !starts) || (closes && b.preempted))
            && (b'.preempted <==> (b.preempted && !starts) || (s.UserStop? && w.users[s.user].cluster == c))
  {
  }

  /** The note registered to be stopped in a cluster: the last one that registered, until a call picks it or any note
      of the cluster leaves. */
  lemma RegisteredExactly(w: World, s: Step, c: Cluster)
    requires Enabled(w, s)
    ensures c in Next(w, s).stops <==>
            || (s.Register? && s.cluster == c)
            || (c in w.stops && !(s.UserPick? && s.cluster == c) && !(s.Deregister? && w.notes[s.note].cluster == c))
    ensures c in Next(w, s).stops ==>
              Next(w, s).stops[c] == if s.Register? && s.cluster == c then w.starters[c].note else w.stops[c]
  {
  }

  /** A note's slot is held from its start until it has left. */
  lemma SlotHeldExactly(steps: seq<Step>, i: nat)
    ensures var w := After(NEW_WORLD, steps);
            NoteOf(i) in w.held <==> i < |w.notes| && w.notes[i].phase in {Writing, Closed, Leaving}
  {
    RunKeepsInv(steps);
    var w := After(NEW_WORLD, steps);
    assert NoteOf(i) in w.held <==> i < |w.notes| && !w.notes[i].phase.Gone?;
  }
}
