// Deletion passes as runs of the lifecycle: a drain never decides on counts it did not ask for,
// and a forced deletion gets there in one pass.
module LifecycleDeletion {
  import opened Base
  import opened Usage
  import opened Policy
  import opened Restate
  import opened Registration
  import opened Cleanup
  import opened Lifecycle
  import opened LifecycleCleaning
  import opened Deletion

  // Step `j` of the run asked for usage in `mode`, and was told `snapshot`.
  ghost predicate QueriedAt(w0: World, run: seq<Label>, j: nat, rsd: Rsd, mode: CleanupMode, snapshot: UsageMap) {
    && j < |run|
    && var w := Exec(w0, run[..j]);
       && run[j].Op? && w.phase == QueryingForDeletion(rsd)
       && mode == ModeFor(rsd, w.clock)
       && snapshot == UsageOf(w.server, mode)
       && w.clock <= Exec(w0, run).clock
  }

  lemma IntoDeriving(w: World, l: Label)
    requires Step(w, l).phase.Deriving?
    ensures
      || Step(w, l).phase == w.phase
      || (l.Op? && w.phase.QueryingForDeletion?
          && Step(w, l).phase == Deriving(w.phase.rsd, ModeFor(w.phase.rsd, w.clock), UsageOf(w.server, ModeFor(w.phase.rsd, w.clock))))
    ensures w.clock <= Step(w, l).clock
  {
    hide Effect, Environment, AdoptionWrites, JobFor, IsNewestFirst, ListsOwned, UsageOf, PlanRegistration;
  }

  lemma IntoDeletionPlanning(w: World, l: Label)
    requires Step(w, l).phase.Planning? && Step(w, l).phase.mode.IsDeleting()
    ensures
      || Step(w, l).phase == w.phase
      || (l.Op? && w.phase.Deriving? && Step(w, l).clock == w.clock
          && Step(w, l).phase == Planning(w.phase.rsd, ModeFor(w.phase.rsd, w.clock), w.phase.snapshot, None))
    ensures w.clock <= Step(w, l).clock
  {
    hide Effect, Environment, AdoptionWrites, JobFor, IsNewestFirst, ListsOwned, UsageOf, PlanRegistration;
  }

  lemma QueriedEarlier(w0: World, run: seq<Label>, j: nat, rsd: Rsd, mode: CleanupMode, snapshot: UsageMap)
    requires run != [] && QueriedAt(w0, run[..|run| - 1], j, rsd, mode, snapshot)
    requires Exec(w0, run[..|run| - 1]).clock <= Exec(w0, run).clock
    ensures QueriedAt(w0, run, j, rsd, mode, snapshot)
  {
    assert run[..|run| - 1][..j] == run[..j];
  }

  lemma {:induction false} DerivingWasQueried(w0: World, run: seq<Label>) returns (j: nat)
    requires w0.phase.Idle? && Exec(w0, run).phase.Deriving?
    ensures
      var phase := Exec(w0, run).phase;
      QueriedAt(w0, run, j, phase.rsd, phase.queryMode, phase.snapshot)
    decreases |run|
  {
    var before, l := run[..|run| - 1], run[|run| - 1];
    var w := Exec(w0, before);
    IntoDeriving(w, l);
    if Exec(w0, run).phase == w.phase {
      j := DerivingWasQueried(w0, before);
      QueriedEarlier(w0, run, j, w.phase.rsd, w.phase.queryMode, w.phase.snapshot);
    } else {
      j := |run| - 1;
    }
  }

  // A cleanup that still waits for work counted the unpinned work: it never runs on the answer
  // of the cheap query, even when the deadline passes while the query runs.
  lemma {:induction false} DrainCountsUnpinnedWork(w0: World, run: seq<Label>) returns (j: nat)
    requires w0.phase.Idle? && Exec(w0, run).phase.Planning? && Exec(w0, run).phase.mode.Deleting?
    ensures
      var phase := Exec(w0, run).phase;
      QueriedAt(w0, run, j, phase.rsd, Deleting, phase.snapshot)
    decreases |run|
  {
    var before, l := run[..|run| - 1], run[|run| - 1];
    var w := Exec(w0, before);
    IntoDeletionPlanning(w, l);
    if Exec(w0, run).phase == w.phase {
      j := DrainCountsUnpinnedWork(w0, before);
      QueriedEarlier(w0, run, j, w.phase.rsd, Deleting, w.phase.snapshot);
    } else {
      j := DerivingWasQueried(w0, before);
      var asked := Exec(w0, before[..j]).clock;
      assert w.phase.queryMode == ModeFor(w.phase.rsd, asked) && asked <= w.clock;
      assert w.phase.queryMode.Deleting?;
      QueriedEarlier(w0, run, j, w.phase.rsd, Deleting, w.phase.snapshot);
    }
  }

  // --- What mode a deletion cleans up in ---

  // Step `j` of the run derived the mode a deletion pass cleans up in.
  ghost predicate DerivedAt(w0: World, run: seq<Label>, j: nat, rsd: Rsd, mode: CleanupMode) {
    && j < |run|
    && var w := Exec(w0, run[..j]);
       && run[j].Op? && w.phase.Deriving? && w.phase.rsd == rsd && mode == ModeFor(rsd, w.clock)
       && w.clock <= Exec(w0, run).clock
  }

  // A deletion pass that is going to clean up, or does.
  ghost predicate Deletes(phase: Phase) {
    (phase.Planning? || phase.Cleaning?) && phase.mode.IsDeleting()
  }

  // A cleanup goes on, or was planned.
  lemma IntoCleaning(w: World, c: Choice)
    requires OpStep(w, c).phase.Cleaning?
    ensures w.phase.Cleaning? || w.phase.Planning?
    ensures OpStep(w, c).phase.rsd == w.phase.rsd && OpStep(w, c).phase.mode == w.phase.mode
    ensures OpStep(w, c).clock == w.clock
  {
    hide Effect, AdoptionWrites, JobFor, IsNewestFirst, ListsOwned, UsageOf, PlanRegistration, Restate.Register;
    if w.phase.Cleaning? && w.phase.job.queue != [] {
      CleaningStep(w, c);
      hide OpStep;
    }
  }

  lemma IntoDeletion(w: World, l: Label)
    requires Deletes(Step(w, l).phase)
    ensures w.clock <= Step(w, l).clock
    ensures
      || (Deletes(w.phase) && w.phase.rsd == Step(w, l).phase.rsd && w.phase.mode == Step(w, l).phase.mode)
      || (l.Op? && w.phase.Deriving? && Step(w, l).phase.rsd == w.phase.rsd
          && Step(w, l).phase.mode == ModeFor(w.phase.rsd, w.clock))
  {
    if Step(w, l).phase.Planning? {
      IntoDeletionPlanning(w, l);
    } else if l.Op? {
      IntoCleaning(w, l.choice);
    }
    hide OpStep, Environment, AdoptionWrites, ModeFor, LosesRegistration;
  }

  lemma DerivedEarlier(w0: World, run: seq<Label>, j: nat, rsd: Rsd, mode: CleanupMode)
    requires run != [] && DerivedAt(w0, run[..|run| - 1], j, rsd, mode)
    requires Exec(w0, run[..|run| - 1]).clock <= Exec(w0, run).clock
    ensures DerivedAt(w0, run, j, rsd, mode)
  {
    assert run[..|run| - 1][..j] == run[..j];
  }

  lemma {:induction false} DeletionDerived(w0: World, run: seq<Label>) returns (j: nat)
    requires w0.phase.Idle? && Deletes(Exec(w0, run).phase)
    ensures DerivedAt(w0, run, j, Exec(w0, run).phase.rsd, Exec(w0, run).phase.mode)
    decreases |run|
  {
    var before, l := run[..|run| - 1], run[|run| - 1];
    var w := Exec(w0, before);
    IntoDeletion(w, l);
    hide Step, ModeFor;
    if Deletes(w.phase) && w.phase.rsd == Exec(w0, run).phase.rsd && w.phase.mode == Exec(w0, run).phase.mode {
      j := DeletionDerived(w0, before);
      DerivedEarlier(w0, run, j, w.phase.rsd, w.phase.mode);
    } else {
      j := |run| - 1;
    }
  }

  lemma DerivingIsDeleting(w0: World, run: seq<Label>, j: nat, rsd: Rsd, mode: CleanupMode)
    requires DerivedAt(w0, run, j, rsd, mode) && mode.IsDeleting()
    ensures rsd.deletedAt.Some?
  {
  }

  // In every run a deletion cleans up in the mode its own spec asks for at the instant it was
  // derived: forced if that is the policy, or if its drain was to give up and the configured
  // timeout, or an hour, has passed since the deletion was asked for; and otherwise it waits. So a
  // drain is never forced before then.
  lemma DeletionForcesOnTime(w0: World, run: seq<Label>) returns (j: nat)
    requires w0.phase.Idle? && Deletes(Exec(w0, run).phase)
    ensures j < |run| && Exec(w0, run[..j]).clock <= Exec(w0, run).clock
    ensures
      var phase := Exec(w0, run).phase;
      phase.mode ==
        if phase.rsd.deletePolicy == Some(Force)
           || (phase.rsd.onTimeout == Some(GiveUp) && TimedOut(phase.rsd, Exec(w0, run[..j]).clock))
        then ForceDeleting else Deleting
    ensures
      var phase := Exec(w0, run).phase;
      phase.mode.ForceDeleting? && phase.rsd.deletePolicy != Some(Force) ==> TimedOut(phase.rsd, Exec(w0, run).clock)
  {
    j := DeletionDerived(w0, run);
    var phase := Exec(w0, run).phase;
    DerivingIsDeleting(w0, run, j, phase.rsd, phase.mode);
    ForcesExactlyWhen(phase.rsd, Exec(w0, run[..j]).clock);
  }

  // --- A forced deletion gets there in one pass ---

  function Operations(run: seq<Label>): nat {
    if run == [] then 0
    else Operations(run[..|run| - 1]) + if run[|run| - 1].Op? then 1 else 0
  }

  // A forced deletion with at most `left` operator steps to go.
  ghost predicate OnTrack(w: World, rsd: Rsd, order: seq<Name>, left: nat) {
    && rsd.deletedAt.Some? && ModeFor(rsd, w.clock).ForceDeleting?
    && match w.phase
       case QueryingForDeletion(r) => r == rsd && IsNewestFirst(order, w.versions, None) && 4 * |order| + 4 <= left
       case Deriving(r, _, _) => r == rsd && IsNewestFirst(order, w.versions, None) && 4 * |order| + 3 <= left
       case Planning(r, mode, _, except) =>
         r == rsd && mode.ForceDeleting? && except == None && IsNewestFirst(order, w.versions, None) && 4 * |order| + 2 <= left
       case Cleaning(_, _, job) => job.settled && |job.queue| + 1 <= left
       case Released(_) => w.phase == Released(false)
       case _ => false
  }

  lemma {:induction false} FewWritesEach(p: Pass, view: View, order: seq<Name>, h: nat)
    ensures |PassWrites(p, view, order, h)| <= 4 * |order|
    decreases |order|
  {
    if order != [] {
      if order[0] !in view.versions {
        FewWritesEach(p, view, order[1..], h);
      } else {
        var v := view.versions[order[0]];
        FewWritesEach(p, view, order[1..], h + if Retains(p, view.usage, v, h) then 1 else 0);
      }
    }
  }

  lemma ForcedJobSettles(p: Pass, view: View, order: seq<Name>)
    requires p.mode.ForceDeleting? && forall n :: n in order ==> n in view.versions
    ensures JobFor(p, view, order).settled
  {
  }

  lemma ForcedPlanning(w: World, c: Choice, rsd: Rsd, left: nat)
    requires w.phase.Planning? && OnTrack(w, rsd, c.order, left)
    ensures left > 0 && OnTrack(Step(w, Op(c)), rsd, c.order, left - 1)
  {
    PlanningStep(w, c);
    var p := Pass(ReplicaSets, rsd, ForceDeleting, w.clock);
    var view := View(w.versions, w.phase.snapshot, w.hpas);
    FewWritesEach(p, view, c.order, 0);
    ForcedJobSettles(p, view, c.order);
    assert PlannedJob(w, c.order) == JobFor(p, view, c.order);
  }

  lemma ForcedCleaning(w: World, c: Choice, rsd: Rsd, order: seq<Name>, left: nat)
    requires w.phase.Cleaning? && OnTrack(w, rsd, order, left)
    ensures left > 0 && OnTrack(Step(w, Op(c)), rsd, order, left - 1)
  {
    if w.phase.job.queue != [] {
      CleaningStep(w, c);
    }
  }

  lemma ForcedStep(w: World, l: Label, rsd: Rsd, order: seq<Name>, left: nat)
    requires OnTrack(w, rsd, order, left) && !l.Crash? && (l.Op? ==> l.choice.order == order)
    ensures OnTrack(Step(w, l), rsd, order, if l.Op? then Max(0, left - 1) else left)
  {
    if l.Op? {
      match w.phase
      case Planning(_, _, _, _) => ForcedPlanning(w, l.choice, rsd, left);
      case Cleaning(_, _, _) => ForcedCleaning(w, l.choice, rsd, order, left);
      case _ =>
    }
  }

  lemma {:induction false} ForcedRun(w: World, run: seq<Label>, rsd: Rsd, order: seq<Name>, left: nat)
    requires OnTrack(w, rsd, order, left)
    requires forall k :: 0 <= k < |run| ==> !run[k].Crash? && (run[k].Op? ==> run[k].choice.order == order)
    ensures OnTrack(Exec(w, run), rsd, order, Max(0, left - Operations(run)))
    decreases |run|
  {
    if run != [] {
      ForcedRun(w, run[..|run| - 1], rsd, order, left);
      ForcedStep(Exec(w, run[..|run| - 1]), run[|run| - 1], rsd, order, Max(0, left - Operations(run[..|run| - 1])));
    }
  }

  // A forced deletion whose calls succeed releases the finalizer in the pass it starts, within
  // a number of operator steps the versions bound, whatever happens around it.
  lemma ForcedDeletionReleases(w: World, run: seq<Label>, order: seq<Name>)
    requires w.phase.Idle? && w.rsd.deletedAt.Some? && ModeFor(w.rsd, w.clock).ForceDeleting?
    requires IsNewestFirst(order, w.versions, None)
    requires forall k :: 0 <= k < |run| ==> !run[k].Crash? && (run[k].Op? ==> run[k].choice.order == order)
    requires Operations(run) >= 4 * |order| + 4
    ensures Exec(Step(w, Begin(false)), run).phase == Released(false)
  {
    var u := Step(w, Begin(false));
    ForcedRun(u, run, w.rsd, order, 4 * |order| + 4);
  }
}
