// What holds over every run of the lifecycle, whatever is interleaved with the operator's
// writes and wherever a pass crashes.
module LifecycleSafety {
  import opened Base
  import opened Usage
  import opened Policy
  import opened Restate
  import opened Registration
  import opened Cleanup
  import opened Lifecycle
  import opened LifecycleInvariant
  import opened LifecycleCleaning

  lemma CrashKeepsInvariant(w: World)
    requires Inv(w)
    ensures Inv(Step(w, Crash))
  {
    var u := Step(w, Crash);
    forall n | Own(n) in u.server.endpoints && n !in u.lost
      ensures n in u.versions && u.versions[n].id == Some(u.server.endpoints[Own(n)])
    {
      assert Own(n) in w.server.endpoints && n !in w.lost;
    }
  }

  lemma OpKeepsInvariant(w: World, c: Choice)
    requires Inv(w)
    ensures Inv(Step(w, Op(c)))
  {
    match w.phase
    case Idle =>
    case Released(_) =>
    case Adopting(_, writes) =>
      if writes == [] { AdoptedKeepsInvariant(w, c); } else { AdoptingKeepsInvariant(w, c); }
    case Checking(_) => QueryingKeepsInvariant(w, c);
    case Querying(_) => QueryingKeepsInvariant(w, c);
    case Registering(_, _, _) => RegisteringKeepsInvariant(w, c);
    case Recording(_, _, _) => RecordingKeepsInvariant(w, c);
    case Confirming(_, _, _) => ConfirmingKeepsInvariant(w, c);
    case QueryingForDeletion(_) => QueryingForDeletionKeepsInvariant(w, c);
    case Deriving(_, _, _) => QueryingForDeletionKeepsInvariant(w, c);
    case Planning(_, _, _, _) => PlanningKeepsInvariant(w, c);
    case Cleaning(_, _, job) =>
      if job.queue == [] { CompletionKeepsInvariant(w, c); } else { CleaningKeepsInvariant(w, c); }
  }

  lemma StepKeepsInvariant(w: World, l: Label)
    requires Inv(w)
    ensures Inv(Step(w, l))
  {
    match l
    case Env(a) => EnvironmentKeepsInvariant(w, a);
    case Tick(elapsed) => TimeKeepsInvariant(w, Step(w, l));
    case Edit(rsd) => TimeKeepsInvariant(w, Step(w, l));
    case Autoscale(n, replicas) => AutoscalingKeepsInvariant(w, n, replicas);
    case Begin(clusterGone) => BeginKeepsInvariant(w, clusterGone);
    case Op(c) => OpKeepsInvariant(w, c);
    case Crash => CrashKeepsInvariant(w);
  }

  lemma {:induction false} RunKeepsInvariant(w: World, run: seq<Label>)
    requires Inv(w)
    ensures Inv(Exec(w, run))
    decreases |run|
  {
    if run != [] {
      RunKeepsInvariant(w, run[..|run| - 1]);
      StepKeepsInvariant(Exec(w, run[..|run| - 1]), run[|run| - 1]);
    }
  }

  // The operator's next step scales version `n` to zero, deregisters it or deletes it.
  ghost predicate TearsDown(w: World, n: Name) {
    && w.phase.Cleaning? && w.phase.job.queue != []
    && var x := w.phase.job.queue[0];
       x.name == n && (x.ScaleToZero? || x.Deregister? || x.DeleteVersion?)
  }

  // Rollout safety: whatever ran between the usage query and this write, no rollout tears down
  // the current version, and none tears down a version that a service routes to or unfinished
  // work is pinned to, unless that version's registration was lost.
  lemma RolloutTearsDownOnlyUnneeded(w0: World, run: seq<Label>, n: Name)
    requires Initial(w0) && TearsDown(Exec(w0, run), n) && Exec(w0, run).phase.mode.Rollout?
    ensures
      var w := Exec(w0, run);
      && n != w.phase.rsd.desired
      && (Own(n) in w.server.endpoints && Needed(w.server, w.server.endpoints[Own(n)]) ==> n in w.lost)
      && (w.phase.job.queue[0].Deregister? && Needed(w.server, w.phase.job.queue[0].id) ==> n in w.lost)
  {
    InitialIsInvariant(w0);
    RunKeepsInvariant(w0, run);
    var w := Exec(w0, run);
    var x := w.phase.job.queue[0];
    assert x in w.phase.job.queue;
    assert Classified(x, w.phase.rsd, w.phase.job.active, w.phase.job.due, w.phase.job.unstamped, w.server.minted);
    assert DueIsSafe(w, w.phase.mode, n);
  }

  // An autoscaler is gone before its version is scaled to zero.
  lemma ScalesToZeroOnlyWithoutAutoscaler(w0: World, run: seq<Label>)
    requires Initial(w0)
    requires
      var w := Exec(w0, run);
      w.phase.Cleaning? && w.phase.job.queue != [] && w.phase.job.queue[0].ScaleToZero?
    ensures Exec(w0, run).phase.job.queue[0].name !in Exec(w0, run).hpas
  {
    InitialIsInvariant(w0);
    RunKeepsInvariant(w0, run);
  }

  lemma StepRevivesNothing(w: World, l: Label, id: DeploymentId)
    requires Consistent(w.server) && Removed(w.server, id)
    ensures Removed(Step(w, l).server, id)
  {
    if l.Env? {
      EnvironmentRevivesNothing(w.server, l.action, id);
    } else if l.Op? && w.phase.Registering?
              && (Own(w.phase.rsd.desired) in w.server.endpoints || l.choice.newId !in w.server.minted) {
      RegisteringStep(w, l.choice);
      var n := w.phase.rsd.desired;
      RegisterRevivesNothing(w.server, Own(n), Services(w, n), w.phase.force, l.choice.newId, id);
    }
  }

  // A deployment removed from Restate stays removed, whatever the run goes on to do.
  lemma {:induction false} RemovedForGood(w0: World, a: seq<Label>, b: seq<Label>, id: DeploymentId)
    requires Initial(w0) && a <= b && Removed(Exec(w0, a).server, id)
    ensures Removed(Exec(w0, b).server, id)
    decreases |b|
  {
    if |a| < |b| {
      var before := b[..|b| - 1];
      RemovedForGood(w0, a, before, id);
      InitialIsInvariant(w0);
      RunKeepsInvariant(w0, before);
      StepRevivesNothing(Exec(w0, before), b[|b| - 1], id);
    } else {
      assert a == b;
    }
  }

  // Releasing the finalizer leaves no version, and no endpoint registered.
  lemma FinalizerReleaseIsComplete(w0: World, run: seq<Label>)
    requires Initial(w0) && Exec(w0, run).phase == Released(false)
    ensures
      var w := Exec(w0, run);
      && w.versions == map[]
      && (forall n :: Own(n) in w.server.endpoints ==> n in w.lost)
  {
    InitialIsInvariant(w0);
    RunKeepsInvariant(w0, run);
  }

  // --- The drain window ---

  // What a pass still has to write.
  ghost function Expected(phase: Phase): seq<Write> {
    match phase
    case Adopting(_, writes) => writes
    case Cleaning(_, _, job) => job.queue
    case _ => []
  }

  // The operator clears the deadline of version `n`, or completes adopting it, or completes a
  // cleanup that found it active.
  ghost predicate Disturbs(w: World, l: Label, n: Name) {
    && l.Op?
    && ((Expected(w.phase) != [] && Expected(w.phase)[0] == ClearDeadline(n))
        || (w.phase.Adopting? && w.phase.writes == [] && w.phase.rsd.desired == n)
        || (w.phase.Cleaning? && w.phase.job.queue == [] && n in w.phase.job.active))
  }

  // Step `j` of the run stamps `n` with the drain delay configured in that pass.
  ghost predicate StampsAt(w0: World, run: seq<Label>, j: nat, n: Name) {
    && j < |run| && run[j].Op?
    && var w := Exec(w0, run[..j]);
       && w.phase.Cleaning? && w.phase.job.queue != []
       && w.phase.job.queue[0] == StampDeadline(n, w.phase.rsd.DrainDelay())
  }

  ghost predicate LeftAloneSince(w0: World, run: seq<Label>, j: nat, n: Name) {
    forall k {:trigger run[..k]} :: j < k < |run| ==> !Disturbs(Exec(w0, run[..k]), run[k], n)
  }

  // A recorded stamp was issued by some step of the run.
  ghost predicate StampExplained(w0: World, run: seq<Label>, j: nat, n: Name) {
    var w := Exec(w0, run);
    && StampsAt(w0, run, j, n)
    && n in w.stamps
    && w.stamps[n] == Stamp(Exec(w0, run[..j]).clock, Exec(w0, run[..j]).phase.rsd.DrainDelay())
    && (n !in w.disturbed ==> LeftAloneSince(w0, run, j, n))
  }

  lemma StampIsNew(w0: World, run: seq<Label>, n: Name)
    requires Initial(w0) && run != []
    requires
      var w := Exec(w0, run[..|run| - 1]);
      && run[|run| - 1].Op? && w.phase.Cleaning? && w.phase.job.queue != []
      && w.phase.job.queue[0].StampDeadline? && w.phase.job.queue[0].name == n
    ensures StampExplained(w0, run, |run| - 1, n)
  {
    var before := run[..|run| - 1];
    var w := Exec(w0, before);
    InitialIsInvariant(w0);
    RunKeepsInvariant(w0, before);
    var x := w.phase.job.queue[0];
    assert x in w.phase.job.queue;
    assert Classified(x, w.phase.rsd, w.phase.job.active, w.phase.job.due, w.phase.job.unstamped, w.server.minted);
  }

  // The part of the history that concerns `n` moves only when a pass disturbs it.
  ghost predicate HistoryMoves(w: World, l: Label, u: World, n: Name) {
    && (n in u.stamps <==> n in w.stamps)
    && (n in u.stamps ==> u.stamps[n] == w.stamps[n])
    && (n in u.disturbed <==> n in w.disturbed || Disturbs(w, l, n))
  }

  lemma WriteLeavesHistory(w: World, x: Write, n: Name)
    requires !(x.StampDeadline? && x.name == n)
    ensures n in Apply(w, x).stamps <==> n in w.stamps
    ensures n in w.stamps ==> Apply(w, x).stamps[n] == w.stamps[n]
    ensures n in Apply(w, x).disturbed <==> n in w.disturbed || x == ClearDeadline(n)
  {
  }

  lemma CleaningLeavesHistory(w: World, c: Choice, n: Name)
    requires w.phase.Cleaning?
    requires w.phase.job.queue != [] ==> !(w.phase.job.queue[0].StampDeadline? && w.phase.job.queue[0].name == n)
    ensures HistoryMoves(w, Op(c), OpStep(w, c), n)
  {
    var job := w.phase.job;
    if job.queue != [] {
      CleaningStep(w, c);
      var rest := w.(phase := Cleaning(w.phase.rsd, w.phase.mode, job.(queue := job.queue[1..])));
      WriteLeavesHistory(rest, job.queue[0], n);
    }
  }

  lemma OpLeavesHistory(w: World, c: Choice, n: Name)
    requires w.phase.Adopting? && w.phase.writes != [] ==> !w.phase.writes[0].StampDeadline?
    requires !(w.phase.Cleaning? && w.phase.job.queue != []
               && w.phase.job.queue[0].StampDeadline? && w.phase.job.queue[0].name == n)
    ensures HistoryMoves(w, Op(c), OpStep(w, c), n)
  {
    match w.phase
    case Adopting(rsd, writes) =>
      if writes != [] { WriteLeavesHistory(w, writes[0], n); }
    case Recording(rsd, snapshot, id) => WriteLeavesHistory(w, RecordId(rsd.desired, id), n);
    case Cleaning(_, _, _) => CleaningLeavesHistory(w, c, n);
    case _ =>
  }

  lemma HistoryStep(w: World, l: Label, n: Name)
    requires w.phase.Adopting? && w.phase.writes != [] ==> !w.phase.writes[0].StampDeadline?
    requires !(l.Op? && w.phase.Cleaning? && w.phase.job.queue != []
               && w.phase.job.queue[0].StampDeadline? && w.phase.job.queue[0].name == n)
    ensures HistoryMoves(w, l, Step(w, l), n)
  {
    if l.Op? {
      OpLeavesHistory(w, l.choice, n);
    }
  }

  lemma {:induction false} StampsAreExplained(w0: World, run: seq<Label>, n: Name) returns (j: nat)
    requires Initial(w0) && n in Exec(w0, run).stamps
    ensures StampExplained(w0, run, j, n)
    decreases |run|
  {
    var before, l := run[..|run| - 1], run[|run| - 1];
    var w := Exec(w0, before);
    InitialIsInvariant(w0);
    RunKeepsInvariant(w0, before);
    if l.Op? && w.phase.Cleaning? && w.phase.job.queue != []
       && w.phase.job.queue[0].StampDeadline? && w.phase.job.queue[0].name == n {
      StampIsNew(w0, run, n);
      j := |run| - 1;
    } else {
      if w.phase.Adopting? && w.phase.writes != [] {
        assert w.phase.writes[0] in w.phase.writes;
      }
      HistoryStep(w, l, n);
      j := StampsAreExplained(w0, before, n);
      StampStaysExplained(w0, run, j, n);
    }
  }

  lemma StampStaysExplained(w0: World, run: seq<Label>, j: nat, n: Name)
    requires run != [] && StampExplained(w0, run[..|run| - 1], j, n)
    requires
      var w := Exec(w0, run[..|run| - 1]);
      var u := Exec(w0, run);
      && n in u.stamps && u.stamps[n] == w.stamps[n]
      && (n in u.disturbed <==> n in w.disturbed || Disturbs(w, run[|run| - 1], n))
    ensures StampExplained(w0, run, j, n)
  {
    var before := run[..|run| - 1];
    assert before[..j] == run[..j] && before[j] == run[j];
    if n !in Exec(w0, run).disturbed {
      StaysLeftAlone(w0, run, j, n);
    }
    hide Exec, Disturbs, LeftAloneSince;
  }

  lemma StaysLeftAlone(w0: World, run: seq<Label>, j: nat, n: Name)
    requires run != [] && LeftAloneSince(w0, run[..|run| - 1], j, n)
    requires !Disturbs(Exec(w0, run[..|run| - 1]), run[|run| - 1], n)
    ensures LeftAloneSince(w0, run, j, n)
  {
    hide Exec, Disturbs;
    var before := run[..|run| - 1];
    forall k {:trigger run[..k]} | j < k < |run| ensures !Disturbs(Exec(w0, run[..k]), run[k], n) {
      if k < |run| - 1 {
        assert before[..k] == run[..k] && before[k] == run[k];
      }
    }
  }

  // The drain window: outside a forced deletion, a version that is still registered is torn
  // down only after a deadline this operator stamped, with the delay configured then, has
  // passed; and since then no step cleared it, completed adopting the version, or completed a
  // cleanup that found it in use. Only a version whose registration was lost escapes it.
  lemma DrainWindow(w0: World, run: seq<Label>, n: Name) returns (j: nat)
    requires Initial(w0)
    requires
      var w := Exec(w0, run);
      TearsDown(w, n) && !w.phase.mode.ForceDeleting? && Own(n) in w.server.endpoints
    ensures n in Exec(w0, run).lost
         || (&& StampsAt(w0, run, j, n)
             && DelayPassed(Exec(w0, run[..j]).phase.rsd, Exec(w0, run[..j]).clock, Exec(w0, run).clock)
             && LeftAloneSince(w0, run, j, n))
  {
    j := 0;
    InitialIsInvariant(w0);
    RunKeepsInvariant(w0, run);
    var w := Exec(w0, run);
    var x := w.phase.job.queue[0];
    assert x in w.phase.job.queue;
    assert Classified(x, w.phase.rsd, w.phase.job.active, w.phase.job.due, w.phase.job.unstamped, w.server.minted);
    assert DueIsSafe(w, w.phase.mode, n);
    if n !in w.lost {
      j := StampsAreExplained(w0, run, n);
    }
  }

  // --- Where safety stops ---

  lemma ExecSnoc(w0: World, run: seq<Label>, l: Label)
    ensures Exec(w0, run + [l]) == Step(Exec(w0, run), l)
  {
    var longer := run + [l];
    assert longer[..|longer| - 1] == run && longer[|longer| - 1] == l;
  }

  const Anything := Choice(false, "", [], [], true)

  function Spec(desired: Name): Rsd {
    Rsd(desired, 1, 10, false, None, None, None, None, None)
  }

  // One more step of a concrete run, with the world it leads to.
  lemma Then(w0: World, run: seq<Label>, w: World, l: Label, u: World) returns (longer: seq<Label>)
    requires Exec(w0, run) == w && Step(w, l) == u
    ensures longer == run + [l] && Exec(w0, longer) == u
  {
    longer := run + [l];
    ExecSnoc(w0, run, l);
  }

  const Empty := Server(map[], map[], map[], [], map[])
  const Routed :=
    Server(map["dp_1" := {"greeter"}], map[Own("v1") := "dp_1"], map["greeter" := "dp_1"], [], map["dp_1" := Own("v1")])
  const V1 := Version("v1", 0, 1, None, None)
  const V2 := Version("v2", 0, 1, None, None)

  ghost function At0(
      desired: Name, server: Server, versions: map<Name, Version>, phase: Phase, seen: set<Name>): World {
    World(Spec(desired), map["v1" := {"greeter"}], server, versions, {}, 0, phase, map[], seen,
      if phase.Recording? || server == Empty then {} else {"v1"})
  }

  // A lone new version is created and adopted, and the pass moves on to the usage query.
  lemma AdoptNewVersion(w0: World, run: seq<Label>, w: World, n: Name) returns (longer: seq<Label>)
    requires Exec(w0, run) == w && w.phase.Idle? && w.rsd == Spec(n)
    requires n !in w.versions && n !in w.hpas && (forall m :: m in w.versions ==> w.versions[m].id.None?)
    ensures Exec(w0, longer) == w.(
      phase := Querying(Spec(n)),
      versions := w.versions[n := Version(n, w.clock, 1, None, None)],
      disturbed := w.disturbed + {n})
  {
    assert AdoptionWrites(w, Spec(n)) == [Create(n, 1)];
    var u := w.(phase := Adopting(Spec(n), [Create(n, 1)]));
    longer := Then(w0, run, w, Begin(false), u);
    var v := u.(phase := Adopting(Spec(n), []), versions := w.versions[n := Version(n, w.clock, 1, None, None)]);
    longer := Then(w0, longer, u, Op(Anything), v);
    u := v.(phase := Checking(Spec(n)), disturbed := w.disturbed + {n});
    longer := Then(w0, longer, v, Op(Anything), u);
    longer := Then(w0, longer, u, Op(Anything), u.(phase := Querying(Spec(n))));
  }

  // The first version is registered, and the pass stops before recording the id.
  lemma LoseFirstRegistration(w0: World) returns (run: seq<Label>)
    requires w0 == At0("v1", Empty, map[], Idle, {})
    ensures Exec(w0, run) == At0("v1", Routed, map["v1" := V1], Idle, {"v1"})
  {
    run := AdoptNewVersion(w0, [], w0, "v1");
    var w := At0("v1", Empty, map["v1" := V1], Querying(Spec("v1")), {"v1"});
    var u := w.(phase := Registering(Spec("v1"), map[], false));
    PlanFirst(w, u);
    run := Then(w0, run, w, Op(Anything.(ready := true)), u);
    w := u.(phase := Recording(Spec("v1"), map[], "dp_1"), server := Routed);
    RegisterFirst(u, w);
    run := Then(w0, run, u, Op(Anything.(newId := "dp_1")), w);
    run := Then(w0, run, w, Crash, w.(phase := Idle, lost := {"v1"}));
  }

  lemma PlanFirst(w: World, u: World)
    requires w == At0("v1", Empty, map["v1" := V1], Querying(Spec("v1")), {"v1"})
    requires u == w.(phase := Registering(Spec("v1"), map[], false))
    ensures Step(w, Op(Anything.(ready := true))) == u
  {
    assert UsageOf(Empty, Rollout) == map[];
  }

  lemma RegisterFirst(u: World, w: World)
    requires u == At0("v1", Empty, map["v1" := V1], Registering(Spec("v1"), map[], false), {"v1"})
    requires w == u.(phase := Recording(Spec("v1"), map[], "dp_1"), server := Routed)
    ensures Step(u, Op(Anything.(newId := "dp_1"))) == w
  {
    assert Restate.Register(Empty, Own("v1"), {"greeter"}, false, "dp_1").0 == Routed;
  }

  // With the second version not ready, the pass plans to scale the first one down.
  lemma PlanSecond(w: World) returns (u: World)
    requires w == At0("v2", Routed, map["v1" := V1, "v2" := V2], Querying(Spec("v2")), {"v1", "v2"})
    ensures Step(w, Op(Anything)) == u
    ensures u == w.(phase := Planning(Spec("v2"), Rollout, UsageOf(Routed, Rollout), Some("v2")))
  {
    u := w.(phase := Planning(Spec("v2"), Rollout, UsageOf(Routed, Rollout), Some("v2")));
  }

  lemma CleanFirst(w: World) returns (u: World)
    requires w.versions == map["v1" := V1, "v2" := V2] && w.hpas == {} && w.clock == 0 && w.server == Routed
    requires w.phase == Planning(Spec("v2"), Rollout, UsageOf(Routed, Rollout), Some("v2"))
    ensures u == Step(w, Op(Anything.(order := ["v1"])))
    ensures TearsDown(u, "v1") && u.phase.mode.Rollout? && u.server == Routed
  {
    var p := Pass(ReplicaSets, Spec("v2"), Rollout, 0);
    assert Judge(p, UsageOf(Routed, Rollout), V1).Due?;
    PlanningStep(w, Anything.(order := ["v1"]));
    u := Step(w, Op(Anything.(order := ["v1"])));
    assert u.phase.job.queue[0] == ScaleToZero("v1");
  }

  // A pass that registers an endpoint and stops before recording the id, followed by a new
  // version: the next pass takes the first version for unregistered and scales it to zero while
  // Restate routes to it.
  lemma LostRegistrationIsTornDown() returns (w0: World, run: seq<Label>)
    ensures Initial(w0)
    ensures
      var w := Exec(w0, run);
      && TearsDown(w, "v1") && w.phase.mode.Rollout?
      && Own("v1") in w.server.endpoints && Needed(w.server, w.server.endpoints[Own("v1")])
  {
    w0 := At0("v1", Empty, map[], Idle, {});
    run := LoseFirstRegistration(w0);
    var w := At0("v1", Routed, map["v1" := V1], Idle, {"v1"});
    var u := w.(rsd := Spec("v2"));
    run := Then(w0, run, w, Edit(Spec("v2")), u);
    run := AdoptNewVersion(w0, run, u, "v2");
    w := At0("v2", Routed, map["v1" := V1, "v2" := V2], Querying(Spec("v2")), {"v1", "v2"});
    u := PlanSecond(w);
    run := Then(w0, run, w, Op(Anything), u);
    w := CleanFirst(u);
    run := Then(w0, run, u, Op(Anything.(order := ["v1"])), w);
    assert Routed.routes["greeter"] == "dp_1";
  }
}
