// What a rollout pass touches before it cleans up: only the current version, and Restate only
// by registering it.
module LifecyclePass {
  import opened Base
  import opened Usage
  import opened Policy
  import opened Restate
  import opened Registration
  import opened Cleanup
  import opened Lifecycle
  import opened LifecycleInvariant
  import opened LifecycleCleaning
  import opened LifecycleSafety

  // The world after the first `k` steps.
  ghost function After(w0: World, run: seq<Label>, k: nat): World
    requires k <= |run|
  {
    Exec(w0, run[..k])
  }

  lemma NextAfter(w0: World, run: seq<Label>, k: nat)
    requires k < |run|
    ensures After(w0, run, k + 1) == Step(After(w0, run, k), run[k])
  {
    assert run[..k + 1][..k] == run[..k] && run[..k + 1][k] == run[k];
  }

  // How far a rollout pass has come before its cleanup.
  ghost function Rank(phase: Phase): Option<nat> {
    match phase
    case Adopting(_, _) => Some(0)
    case Checking(_) => Some(1)
    case Querying(_) => Some(2)
    case Registering(_, _, _) => Some(3)
    case Recording(_, _, _) => Some(4)
    case Confirming(_, _, _) => Some(5)
    case _ => None
  }

  ghost predicate Early(phase: Phase, rsd: Rsd) {
    Rank(phase).Some? && phase.rsd == rsd
  }

  // A pass begins at step `from` and neither stops nor starts over.
  ghost predicate PassFrom(w0: World, run: seq<Label>, from: nat) {
    && from < |run| && run[from] == Begin(false)
    && After(w0, run, from).phase.Idle? && After(w0, run, from).rsd.deletedAt.None?
    && (forall k :: from < k < |run| ==> !run[k].Begin? && !run[k].Crash?)
  }

  // Every version but `n` is as it was, but for replicas an autoscaler changed.
  ghost predicate SameElsewhere(w: World, u: World, n: Name) {
    forall m :: m != n ==>
      && (m in w.versions <==> m in u.versions)
      && (m in w.versions ==> u.versions[m] == w.versions[m].(replicas := u.versions[m].replicas))
      && (m in w.versions && m !in w.hpas ==> u.versions[m] == w.versions[m])
      && (m in w.hpas <==> m in u.hpas)
  }

  // A step that leaves Restate alone, or registers version `n`, or is not the operator's.
  ghost predicate RegistersAtMost(w: World, l: Label, u: World, n: Name) {
    || l.Env? || u.server == w.server
    || exists force, newId :: u.server == Restate.Register(w.server, Own(n), Services(w, n), force, newId).0
  }

  lemma LateStaysLate(w: World, c: Choice)
    requires Rank(w.phase).None?
    ensures Rank(OpStep(w, c).phase).None?
  {
    if w.phase.Cleaning? && w.phase.job.queue != [] {
      CleaningStep(w, c);
      hide OpStep, Effect;
    } else {
      hide UsageOf, IsNewestFirst, JobFor, ModeFor;
    }
  }

  // An operation moves an early pass on, or out of its early phases.
  lemma EarlyMoves(w: World, c: Choice)
    requires Rank(w.phase).Some? && !(w.phase.Adopting? && w.phase.writes != [])
    ensures
      var next := OpStep(w, c).phase;
      Rank(next).Some? ==> next.rsd == w.phase.rsd && Rank(w.phase).value <= Rank(next).value
  {
    hide Effect, UsageOf, PlanRegistration, ListsOwned, Restate.Register, ConfirmedLatest, Recorded, FastPath, Services;
  }

  lemma EarlyOperation(w: World, c: Choice, rsd: Rsd)
    requires Early(OpStep(w, c).phase, rsd)
    ensures Early(w.phase, rsd) && Rank(w.phase).value <= Rank(OpStep(w, c).phase).value
  {
    if Rank(w.phase).None? {
      LateStaysLate(w, c);
    } else if w.phase.Adopting? && w.phase.writes != [] {
      AdoptingStep(w, c);
      hide Apply;
    } else {
      EarlyMoves(w, c);
    }
    hide OpStep;
  }

  // A pass in an early phase was in one all along, of the same spec.
  lemma EarlyBackward(w: World, l: Label, rsd: Rsd)
    requires !l.Begin? && Early(Step(w, l).phase, rsd)
    ensures Early(w.phase, rsd) && Rank(w.phase).value <= Rank(Step(w, l).phase).value
  {
    if l.Op? {
      EarlyOperation(w, l.choice, rsd);
    }
    hide OpStep, Environment, LosesRegistration;
  }

  lemma AdoptionTouches(w: World, c: Choice)
    requires w.phase.Adopting? && AdoptingOk(w, w.phase.rsd, w.phase.writes)
    ensures SameElsewhere(w, OpStep(w, c), w.phase.rsd.desired) && OpStep(w, c).server == w.server
  {
    if w.phase.writes != [] {
      AdoptionWriteFacts(w, w.phase.rsd, w.phase.writes);
      assert w.phase.writes[0] in w.phase.writes;
    }
  }

  lemma RegistrationTouches(w: World, c: Choice)
    requires w.phase.Registering?
    ensures
      var n, u := w.phase.rsd.desired, OpStep(w, c);
      SameElsewhere(w, u, n) && RegistersAtMost(w, Op(c), u, n)
  {
    if Own(w.phase.rsd.desired) in w.server.endpoints || c.newId !in w.server.minted {
      RegisteringStep(w, c);
      hide OpStep, Restate.Register;
    }
  }

  lemma OtherOperationTouches(w: World, c: Choice)
    requires Rank(w.phase).Some? && !w.phase.Adopting? && !w.phase.Registering?
    ensures SameElsewhere(w, OpStep(w, c), w.phase.rsd.desired) && OpStep(w, c).server == w.server
  {
    hide UsageOf, PlanRegistration, ListsOwned, ConfirmedLatest;
  }

  lemma EarlyStepTouches(w: World, l: Label, rsd: Rsd)
    requires Inv(w) && Early(w.phase, rsd) && !l.Begin? && !l.Crash?
    ensures SameElsewhere(w, Step(w, l), rsd.desired)
    ensures RegistersAtMost(w, l, Step(w, l), rsd.desired)
    ensures !l.Env? && Rank(w.phase).value != 3 ==> Step(w, l).server == w.server
  {
    if l.Op? {
      if w.phase.Adopting? {
        AdoptionTouches(w, l.choice);
      } else if w.phase.Registering? {
        RegistrationTouches(w, l.choice);
      } else {
        OtherOperationTouches(w, l.choice);
      }
      hide Inv, OpStep;
    } else {
      hide Inv, Environment;
    }
  }

  lemma {:induction false} EarlyAllAlong(w0: World, run: seq<Label>, from: nat, j: nat, k: nat, rsd: Rsd)
    requires PassFrom(w0, run, from) && from < j <= k <= |run| && Early(After(w0, run, k).phase, rsd)
    ensures Early(After(w0, run, j).phase, rsd)
    ensures Rank(After(w0, run, j).phase).value <= Rank(After(w0, run, k).phase).value
    decreases k
  {
    if j < k {
      NextAfter(w0, run, k - 1);
      EarlyBackward(After(w0, run, k - 1), run[k - 1], rsd);
      EarlyAllAlong(w0, run, from, j, k - 1, rsd);
    }
  }

  lemma PassBegins(w0: World, run: seq<Label>, from: nat)
    requires PassFrom(w0, run, from)
    ensures
      var w, u := After(w0, run, from), After(w0, run, from + 1);
      Early(u.phase, w.rsd) && SameElsewhere(w, u, w.rsd.desired) && u.server == w.server
  {
    NextAfter(w0, run, from);
  }

  lemma {:induction false} SpecOfPass(w0: World, run: seq<Label>, from: nat, k: nat, rsd: Rsd)
    requires PassFrom(w0, run, from) && from < k <= |run| && Early(After(w0, run, k).phase, rsd)
    ensures rsd == After(w0, run, from).rsd
  {
    EarlyAllAlong(w0, run, from, from + 1, k, rsd);
    PassBegins(w0, run, from);
  }

  // Step `k` of the run leaves every version but `n` alone, and Restate but for registering it.
  ghost predicate StepTouches(w0: World, run: seq<Label>, k: nat, n: Name)
    requires k < |run|
  {
    && SameElsewhere(After(w0, run, k), After(w0, run, k + 1), n)
    && RegistersAtMost(After(w0, run, k), run[k], After(w0, run, k + 1), n)
  }

  ghost predicate ServerStays(w0: World, run: seq<Label>, k: nat)
    requires k < |run|
  {
    After(w0, run, k + 1).server == After(w0, run, k).server
  }

  // Only steps outside the operator move Restate.
  ghost predicate OnlyOthersMoveRestate(w0: World, run: seq<Label>, from: nat) {
    forall k :: from <= k < |run| && !run[k].Env? ==> ServerStays(w0, run, k)
  }

  // The operator moves Restate at most by registering version `n`.
  ghost predicate OnlyRegisters(w0: World, run: seq<Label>, from: nat, n: Name) {
    forall k :: from <= k < |run| ==> StepTouches(w0, run, k, n)
  }

  ghost predicate NeverCleans(w0: World, run: seq<Label>, from: nat) {
    forall k :: from <= k <= |run| ==> !After(w0, run, k).phase.Cleaning?
  }

  lemma {:induction false} SameAcross(w0: World, run: seq<Label>, from: nat, k: nat, n: Name)
    requires from <= k <= |run| && OnlyRegisters(w0, run, from, n)
    ensures SameElsewhere(After(w0, run, from), After(w0, run, k), n)
    decreases k
  {
    if from < k {
      SameAcross(w0, run, from, k - 1, n);
      assert StepTouches(w0, run, k - 1, n);
    }
  }

  lemma PassLabels(w0: World, run: seq<Label>, from: nat, k: nat)
    requires PassFrom(w0, run, from) && from < k < |run|
    ensures !run[k].Begin? && !run[k].Crash?
  {
  }

  lemma PassStepTouches(w0: World, run: seq<Label>, from: nat, k: nat)
    requires PassFrom(w0, run, from) && from <= k < |run| && from + 1 < |run|
    requires Inv(After(w0, run, k))
    requires Early(After(w0, run, |run| - 1).phase, After(w0, run, from).rsd)
    ensures StepTouches(w0, run, k, After(w0, run, from).rsd.desired)
    ensures !run[k].Env? && Rank(After(w0, run, |run| - 1).phase).value < 3 ==> ServerStays(w0, run, k)
  {
    var rsd := After(w0, run, from).rsd;
    if k == from {
      PassBegins(w0, run, from);
      hide Inv, Step, Exec, After, PassFrom;
    } else {
      EarlyAllAlong(w0, run, from, k, |run| - 1, rsd);
      PassLabels(w0, run, from, k);
      NextAfter(w0, run, k);
      EarlyStepTouches(After(w0, run, k), run[k], rsd);
      hide Inv, Step, Exec, After, PassFrom, SameElsewhere, RegistersAtMost;
    }
  }

  ghost predicate Invariant(w0: World, run: seq<Label>, from: nat) {
    forall k :: from <= k < |run| ==> Inv(After(w0, run, k))
  }

  lemma HoldsThroughout(w0: World, run: seq<Label>, from: nat)
    requires Initial(w0)
    ensures Invariant(w0, run, from)
  {
    hide Inv;
    InitialIsInvariant(w0);
    forall k | from <= k < |run| ensures Inv(After(w0, run, k)) {
      RunKeepsInvariant(w0, run[..k]);
    }
  }

  lemma PassNeverCleans(w0: World, run: seq<Label>, from: nat)
    requires PassFrom(w0, run, from) && from + 1 < |run|
    requires Early(After(w0, run, |run| - 1).phase, After(w0, run, from).rsd) && After(w0, run, |run|).phase.Idle?
    ensures NeverCleans(w0, run, from)
  {
    assert After(w0, run, from).phase.Idle?;
    forall k | from <= k <= |run| ensures !After(w0, run, k).phase.Cleaning? {
      if from < k < |run| {
        EarlyAllAlong(w0, run, from, k, |run| - 1, After(w0, run, from).rsd);
      }
      hide Exec, PassFrom, After;
    }
  }

  lemma PassRegistersAtMost(w0: World, run: seq<Label>, from: nat)
    requires PassFrom(w0, run, from) && from + 1 < |run| && Invariant(w0, run, from)
    requires Early(After(w0, run, |run| - 1).phase, After(w0, run, from).rsd)
    ensures OnlyRegisters(w0, run, from, After(w0, run, from).rsd.desired)
    ensures Rank(After(w0, run, |run| - 1).phase).value < 3 ==> OnlyOthersMoveRestate(w0, run, from)
  {
    hide PassFrom, After, Inv, StepTouches, ServerStays;
    forall k | from <= k < |run|
      ensures StepTouches(w0, run, k, After(w0, run, from).rsd.desired)
      ensures !run[k].Env? && Rank(After(w0, run, |run| - 1).phase).value < 3 ==> ServerStays(w0, run, k)
    {
      PassStepTouches(w0, run, from, k);
    }
  }

  // A pass that ends before its cleanup touches no version but the current one, moves Restate
  // only by registering it, and issues no cleanup write; and one that ends by its plan, as a
  // conflict does, does not move Restate at all.
  lemma PassWithoutCleanup(w0: World, run: seq<Label>, from: nat)
    requires Initial(w0) && PassFrom(w0, run, from) && from + 1 < |run|
    requires Early(After(w0, run, |run| - 1).phase, After(w0, run, from).rsd) && After(w0, run, |run|).phase.Idle?
    ensures
      var n := After(w0, run, from).rsd.desired;
      && OnlyRegisters(w0, run, from, n)
      && SameElsewhere(After(w0, run, from), After(w0, run, |run|), n)
      && NeverCleans(w0, run, from)
      && (Rank(After(w0, run, |run| - 1).phase).value < 3 ==> OnlyOthersMoveRestate(w0, run, from))
  {
    hide *;
    HoldsThroughout(w0, run, from);
    PassNeverCleans(w0, run, from);
    PassRegistersAtMost(w0, run, from);
    SameAcross(w0, run, from, |run|, After(w0, run, from).rsd.desired);
  }

  // A conflict, over the whole pass from its beginning to the step that plans it: nothing but the
  // current version was created or changed, nothing was written to Restate, and no cleanup ran.
  lemma ConflictTouchesOnlyCurrent(w0: World, run: seq<Label>, from: nat, c: Choice)
    requires Initial(w0) && PassFrom(w0, run, from) && from + 1 < |run| && run[|run| - 1] == Op(c)
    requires
      var w := After(w0, run, |run| - 1);
      && w.phase.Querying? && ListsOwned(c.owned, w.versions)
      && PlanRegistration(Recorded(w, w.phase.rsd.desired), UsageOf(w.server, Rollout), c.owned).Conflict?
    ensures
      var n := After(w0, run, from).rsd.desired;
      && After(w0, run, |run|).phase.Idle?
      && SameElsewhere(After(w0, run, from), After(w0, run, |run|), n)
      && OnlyOthersMoveRestate(w0, run, from)
      && NeverCleans(w0, run, from)
  {
    var w := After(w0, run, |run| - 1);
    SpecOfPass(w0, run, from, |run| - 1, w.phase.rsd);
    NextAfter(w0, run, |run| - 1);
    ConflictEndsPass(w, c);
    PassWithoutCleanup(w0, run, from);
    hide Initial, PassFrom, Exec, OnlyOthersMoveRestate, SameElsewhere, NeverCleans, OpStep, After;
  }

  lemma ConflictEndsPass(w: World, c: Choice)
    requires w.phase.Querying? && ListsOwned(c.owned, w.versions)
    requires PlanRegistration(Recorded(w, w.phase.rsd.desired), UsageOf(w.server, Rollout), c.owned).Conflict?
    ensures Step(w, Op(c)).phase.Idle?
  {
  }

  // --- What a pass found before its cleanup ---

  // At step `k` the pass saw Restate route to the current version, to its recorded id when it
  // asked for usage, or to all its services when it confirmed a registration, and went on to clean
  // up.
  ghost predicate RoutedAt(w0: World, run: seq<Label>, k: nat, rsd: Rsd) {
    && k < |run| && run[k].Op? && After(w0, run, k + 1).phase.Planning?
    && var w := After(w0, run, k);
       || (w.phase == Querying(rsd) && Recorded(w, rsd.desired).Some?
           && IsLatest(w.server, Recorded(w, rsd.desired).value))
       || (w.phase.Confirming? && w.phase.rsd == rsd
           && ConfirmedLatest(w.server, w.phase.id, Services(w, rsd.desired)))
  }

  // At step `k` it asked for usage, Restate did not route to the recorded id, if any, the pods were
  // not ready, and it went on to clean up.
  ghost predicate UnreadyAt(w0: World, run: seq<Label>, k: nat, rsd: Rsd) {
    && k < |run| && run[k].Op? && !run[k].choice.ready && After(w0, run, k + 1).phase.Planning?
    && var w := After(w0, run, k);
       && w.phase == Querying(rsd)
       && (Recorded(w, rsd.desired).Some? ==> !IsLatest(w.server, Recorded(w, rsd.desired).value))
  }

  // Some step after the beginning did.
  ghost predicate SawRouted(w0: World, run: seq<Label>, from: nat, rsd: Rsd) {
    exists k :: from < k && RoutedAt(w0, run, k, rsd)
  }

  ghost predicate SawUnready(w0: World, run: seq<Label>, from: nat, rsd: Rsd) {
    exists k :: from < k && UnreadyAt(w0, run, k, rsd)
  }

  // The pass registers nothing: it moves Restate only by what its cleanup deregisters.
  ghost predicate NeverRegisters(w0: World, run: seq<Label>, from: nat) {
    && (forall k :: from <= k <= |run| ==> !After(w0, run, k).phase.Registering?)
    && (forall k :: from <= k < |run| && !run[k].Env? && !After(w0, run, k).phase.Cleaning? ==> ServerStays(w0, run, k))
  }

  lemma LateStep(w: World, l: Label)
    requires Rank(w.phase).None? && !l.Begin?
    ensures Rank(Step(w, l).phase).None?
    ensures !l.Env? && !w.phase.Cleaning? ==> Step(w, l).server == w.server
  {
    if l.Op? {
      LateStaysLate(w, l.choice);
      if !w.phase.Cleaning? {
        LateStays(w, l.choice);
      }
    }
    hide OpStep, Environment, LosesRegistration;
  }

  lemma LateStays(w: World, c: Choice)
    requires Rank(w.phase).None? && !w.phase.Cleaning?
    ensures OpStep(w, c).server == w.server
  {
    hide UsageOf, IsNewestFirst, JobFor, ModeFor;
  }

  lemma {:induction false} LateFrom(w0: World, run: seq<Label>, k: nat, j: nat)
    requires k <= j <= |run| && Rank(After(w0, run, k).phase).None?
    requires forall i :: k <= i < |run| ==> !run[i].Begin?
    ensures Rank(After(w0, run, j).phase).None?
    decreases j
  {
    hide *;
    if k < j {
      LateFrom(w0, run, k, j - 1);
      NextAfter(w0, run, j - 1);
      LateStep(After(w0, run, j - 1), run[j - 1]);
    }
  }

  lemma AfterPrefix(w0: World, run: seq<Label>, q: nat, j: nat)
    requires j <= q <= |run|
    ensures After(w0, run[..q], j) == After(w0, run, j)
  {
    assert run[..q][..j] == run[..j];
  }

  lemma ServerStaysInPrefix(w0: World, run: seq<Label>, q: nat, j: nat)
    requires j < q <= |run|
    ensures run[..q][j] == run[j] && (ServerStays(w0, run[..q], j) <==> ServerStays(w0, run, j))
  {
    AfterPrefix(w0, run, q, j);
    AfterPrefix(w0, run, q, j + 1);
    hide After;
  }

  lemma EarlyIsRanked(phase: Phase, rsd: Rsd)
    requires Early(phase, rsd)
    ensures Rank(phase).Some?
  {
  }

  lemma EarlyIsNotRegistering(w: World, rank: nat, rsd: Rsd)
    requires w.phase.Idle? || (Early(w.phase, rsd) && Rank(w.phase).value <= rank < 3)
    ensures !w.phase.Registering?
  {
  }

  lemma BeginsIdle(w0: World, run: seq<Label>, from: nat)
    requires PassFrom(w0, run, from)
    ensures After(w0, run, from).phase.Idle?
  {
  }

  lemma EarlyUntil(w0: World, run: seq<Label>, from: nat, q: nat, j: nat, rsd: Rsd, rank: nat)
    requires from <= j < q <= |run| && from + 1 < q && Initial(w0) && PassFrom(w0, run[..q], from)
    requires Early(After(w0, run, q - 1).phase, rsd) && Rank(After(w0, run, q - 1).phase) == Some(rank) && rank < 3
    ensures !After(w0, run, j).phase.Registering?
    ensures !run[j].Env? ==> ServerStays(w0, run, j)
  {
    hide *;
    var before := run[..q];
    AfterPrefix(w0, run, q, q - 1);
    AfterPrefix(w0, run, q, j);
    ServerStaysInPrefix(w0, run, q, j);
    SpecOfPass(w0, before, from, q - 1, rsd);
    HoldsAt(w0, before, j);
    PassStepTouches(w0, before, from, j);
    if from < j {
      EarlyAllAlong(w0, before, from, j, q - 1, rsd);
    } else {
      BeginsIdle(w0, before, from);
    }
    EarlyIsNotRegistering(After(w0, before, j), rank, rsd);
  }

  lemma HoldsAt(w0: World, run: seq<Label>, j: nat)
    requires Initial(w0) && j <= |run|
    ensures Inv(After(w0, run, j))
  {
    InitialIsInvariant(w0);
    RunKeepsInvariant(w0, run[..j]);
  }

  lemma UnreadyIs(w0: World, run: seq<Label>, q: nat, rsd: Rsd)
    requires UnreadyAt(w0, run, q, rsd)
    ensures q < |run| && Early(After(w0, run, q).phase, rsd) && Rank(After(w0, run, q).phase) == Some(2)
    ensures Rank(After(w0, run, q + 1).phase).None?
  {
    hide After;
  }

  lemma LateIs(w0: World, run: seq<Label>, k: nat)
    requires k <= |run| && Rank(After(w0, run, k).phase).None?
    ensures !After(w0, run, k).phase.Registering?
  {
    hide After;
  }

  lemma LateServer(w0: World, run: seq<Label>, k: nat)
    requires k < |run| && Rank(After(w0, run, k).phase).None? && !run[k].Begin?
    ensures !run[k].Env? && !After(w0, run, k).phase.Cleaning? ==> ServerStays(w0, run, k)
  {
    NextAfter(w0, run, k);
    LateStep(After(w0, run, k), run[k]);
    hide After, Step, Rank;
  }

  // A pass that has yet to clean up has not found the pods unready.
  lemma NotUnreadyBefore(w0: World, run: seq<Label>, from: nat, j: nat, rsd: Rsd)
    requires from < j <= |run| && Rank(After(w0, run, j).phase).Some?
    requires forall i :: from < i < |run| ==> !run[i].Begin?
    ensures forall k :: from < k < j ==> !UnreadyAt(w0, run, k, rsd)
  {
    hide After, UnreadyAt, Rank;
    forall k | from < k < j ensures !UnreadyAt(w0, run, k, rsd) {
      if UnreadyAt(w0, run, k, rsd) {
        UnreadyIs(w0, run, k, rsd);
        LateFrom(w0, run, k + 1, j);
      }
    }
  }

  // Nor has one that ended, or was stopped, before it cleaned up.
  lemma NeverUnready(w0: World, run: seq<Label>, from: nat, rsd: Rsd)
    requires from + 1 < |run| && Rank(After(w0, run, |run| - 1).phase).Some? && After(w0, run, |run|).phase.Idle?
    requires forall i :: from < i < |run| ==> !run[i].Begin?
    ensures !SawUnready(w0, run, from, rsd)
  {
    NotUnreadyBefore(w0, run, from, |run| - 1, rsd);
    hide After, Rank;
  }

  // Nor has one that went on to clean up because Restate routed to the current version.
  lemma RoutedIsNotUnready(w0: World, run: seq<Label>, from: nat, q: nat, rsd: Rsd)
    requires from < q && RoutedAt(w0, run, q, rsd) && forall i :: from < i < |run| ==> !run[i].Begin?
    ensures !SawUnready(w0, run, from, rsd)
  {
    RoutedIs(w0, run, q, rsd);
    NotUnreadyBefore(w0, run, from, q, rsd);
    hide After, RoutedAt, UnreadyAt, Rank;
    forall k | from < k ensures !UnreadyAt(w0, run, k, rsd) {
      if k > q && UnreadyAt(w0, run, k, rsd) {
        UnreadyIs(w0, run, k, rsd);
        LateFrom(w0, run, q + 1, k);
      }
    }
  }

  lemma RoutedIs(w0: World, run: seq<Label>, q: nat, rsd: Rsd)
    requires RoutedAt(w0, run, q, rsd)
    ensures q < |run| && Rank(After(w0, run, q).phase).Some? && Rank(After(w0, run, q + 1).phase).None?
    ensures !UnreadyAt(w0, run, q, rsd)
  {
    hide After, IsLatest, ConfirmedLatest;
  }

  // A pass that found the pods not ready registered nothing.
  lemma UnreadyPass(w0: World, run: seq<Label>, from: nat, q: nat, rsd: Rsd)
    requires Initial(w0) && from < q && UnreadyAt(w0, run, q, rsd) && q < |run| && PassFrom(w0, run[..q + 1], from)
    requires forall i :: from < i < |run| ==> !run[i].Begin?
    ensures NeverRegisters(w0, run, from)
  {
    hide Initial, After, ServerStays, Exec, Step, Early, Rank, UnreadyAt, PassFrom;
    UnreadyIs(w0, run, q, rsd);
    forall k | from <= k <= |run|
      ensures !After(w0, run, k).phase.Registering?
      ensures k < |run| && !run[k].Env? && !After(w0, run, k).phase.Cleaning? ==> ServerStays(w0, run, k)
    {
      if k <= q {
        EarlyUntil(w0, run, from, q + 1, k, rsd, 2);
      } else {
        LateFrom(w0, run, q + 1, k);
        LateIs(w0, run, k);
        if k < |run| {
          LateServer(w0, run, k);
        }
      }
    }
  }
}
