// Where a repeated cleanup pass does not repair what an interrupted one left: an autoscaler was
// removed and the replicas it had set were not restored (replicaset.rs).
module LifecycleCut {
  import opened Base
  import opened Usage
  import opened Policy
  import opened Restate
  import opened Registration
  import opened Cleanup
  import opened Replay
  import opened Lifecycle
  import opened LifecycleInvariant
  import opened LifecycleCleaning
  import opened LifecycleSafety

  // --- It is never repaired ---

  // Version `n` has no autoscaler, nothing is about to give it one or restore its replicas, and
  // these are what the autoscaler left, or none.
  ghost predicate Stranded(w: World, n: Name, replicas: nat) {
    && n !in w.hpas && (n in w.versions ==> w.versions[n].replicas == replicas || w.versions[n].replicas == 0)
    && Passes(w.rsd, n) && (!w.phase.Idle? && !w.phase.Released? ==> Passes(w.phase.rsd, n))
    && (w.phase.Cleaning? ==>
          forall x :: x in w.phase.job.queue && x.name == n ==> !x.EnsureHpa? && !x.RestoreScale?)
  }

  // A spec that wants another version and no autoscaling.
  ghost predicate Passes(rsd: Rsd, n: Name) {
    rsd.desired != n && !rsd.autoscaling
  }

  // A pass without autoscaling restores only what has an autoscaler.
  lemma {:induction false} RestoresOnlyAutoscaled(p: Pass, view: View, order: seq<Name>, h: nat)
    requires Named(view) && !p.rsd.autoscaling
    ensures forall x :: x in PassWrites(p, view, order, h) ==>
      !x.EnsureHpa? && (x.RestoreScale? ==> x.name in view.hpas)
    decreases |order|
  {
    if order != [] {
      if order[0] !in view.versions {
        RestoresOnlyAutoscaled(p, view, order[1..], h);
      } else {
        var v := view.versions[order[0]];
        RestoresOnlyAutoscaled(p, view, order[1..], h + if Retains(p, view.usage, v, h) then 1 else 0);
        TurnRestores(p, view, v, h);
      }
    }
  }

  lemma TurnRestores(p: Pass, view: View, v: Version, h: nat)
    requires !p.rsd.autoscaling
    ensures forall x :: x in VersionWrites(p, view, v, h) ==>
      !x.EnsureHpa? && (x.RestoreScale? ==> x.name in view.hpas)
  {
  }

  lemma PlanningStrands(w: World, c: Choice, n: Name, replicas: nat)
    requires Inv(w) && Stranded(w, n, replicas) && w.phase.Planning?
    ensures Stranded(Step(w, Op(c)), n, replicas)
  {
    if IsNewestFirst(c.order, w.versions, w.phase.except) {
      PlanningStep(w, c);
      var p := Pass(ReplicaSets, w.phase.rsd, w.phase.mode, w.clock);
      RestoresOnlyAutoscaled(p, View(w.versions, w.phase.snapshot, w.hpas), c.order, 0);
      hide Step, Inv, IsNewestFirst;
    } else {
      hide JobFor, IsNewestFirst, Inv;
    }
  }

  // One write that neither restores `n` nor gives it an autoscaler.
  lemma WriteStrands(w: World, x: Write, n: Name, replicas: nat)
    requires n !in w.hpas && (n in w.versions ==> w.versions[n].replicas == replicas || w.versions[n].replicas == 0)
    requires x.name == n ==> !x.EnsureHpa? && !x.RestoreScale? && !x.Create?
    ensures
      var u := Apply(w, x);
      n !in u.hpas && (n in u.versions ==> u.versions[n].replicas == replicas || u.versions[n].replicas == 0)
  {
  }

  lemma CleaningStrands(w: World, c: Choice, n: Name, replicas: nat)
    requires Inv(w) && Stranded(w, n, replicas) && w.phase.Cleaning? && w.phase.job.queue != []
    ensures Stranded(Step(w, Op(c)), n, replicas)
  {
    var job := w.phase.job;
    var x := job.queue[0];
    assert x in job.queue && Classified(x, w.phase.rsd, job.active, job.due, job.unstamped, w.server.minted);
    CleaningStep(w, c);
    assert forall y :: y in job.queue[1..] ==> y in job.queue;
    var rest := w.(phase := Cleaning(w.phase.rsd, w.phase.mode, job.(queue := job.queue[1..])));
    WriteStrands(rest, x, n, replicas);
    assert Apply(rest, x).phase == rest.phase && Apply(rest, x).rsd == rest.rsd;
    hide Step, Inv, Apply;
  }

  lemma AdoptingStrands(w: World, c: Choice, n: Name, replicas: nat)
    requires Inv(w) && Stranded(w, n, replicas) && w.phase.Adopting? && w.phase.writes != []
    ensures Stranded(Step(w, Op(c)), n, replicas)
  {
    assert w.phase.writes[0] in w.phase.writes;
    AdoptingStep(w, c);
    hide Step, Inv;
  }

  // What an operation that writes to no version but the current one leaves.
  ghost predicate OnlyCurrent(w: World, u: World)
    requires !w.phase.Idle? && !w.phase.Released?
  {
    && u.rsd == w.rsd && u.hpas == w.hpas && !u.phase.Cleaning?
    && (u.phase.Idle? || u.phase.Released? || u.phase.rsd == w.phase.rsd)
    && (forall n :: n != w.phase.rsd.desired ==>
          (n in u.versions <==> n in w.versions) && (n in w.versions ==> u.versions[n] == w.versions[n]))
  }

  lemma QueryingOnlyCurrent(w: World, c: Choice)
    requires w.phase.Querying?
    ensures OnlyCurrent(w, OpStep(w, c))
  {
    hide UsageOf, PlanRegistration, ListsOwned;
  }

  lemma OtherOperation(w: World, c: Choice)
    requires !w.phase.Planning? && !w.phase.Idle? && !w.phase.Released?
    requires !(w.phase.Cleaning? && w.phase.job.queue != []) && !(w.phase.Adopting? && w.phase.writes != [])
    ensures OnlyCurrent(w, OpStep(w, c))
  {
    if w.phase.Querying? {
      QueryingOnlyCurrent(w, c);
      hide OpStep;
    } else {
      hide UsageOf, QueryStep, Restate.Register, FastPath, ConfirmedLatest, Services;
    }
  }

  lemma OtherOperationStrands(w: World, c: Choice, n: Name, replicas: nat)
    requires Stranded(w, n, replicas) && !w.phase.Planning?
    requires !(w.phase.Cleaning? && w.phase.job.queue != []) && !(w.phase.Adopting? && w.phase.writes != [])
    ensures Stranded(OpStep(w, c), n, replicas)
  {
    if w.phase.Idle? || w.phase.Released? {
      Rests(w, c);
      hide OpStep;
    } else {
      OtherOperation(w, c);
      hide OpStep;
    }
  }

  lemma Rests(w: World, c: Choice)
    requires w.phase.Idle? || w.phase.Released?
    ensures OpStep(w, c) == w
  {
  }

  lemma OutsideStrands(w: World, l: Label, n: Name, replicas: nat)
    requires Stranded(w, n, replicas) && !l.Op? && (l.Edit? ==> Passes(l.rsd, n))
    ensures Stranded(Step(w, l), n, replicas)
  {
    hide Environment, AdoptionWrites, LosesRegistration;
  }

  lemma StepStrands(w: World, l: Label, n: Name, replicas: nat)
    requires Inv(w) && Stranded(w, n, replicas) && (l.Edit? ==> Passes(l.rsd, n))
    ensures Stranded(Step(w, l), n, replicas)
  {
    if !l.Op? {
      OutsideStrands(w, l, n, replicas);
    } else if w.phase.Planning? {
      PlanningStrands(w, l.choice, n, replicas);
    } else if w.phase.Cleaning? && w.phase.job.queue != [] {
      CleaningStrands(w, l.choice, n, replicas);
    } else if w.phase.Adopting? && w.phase.writes != [] {
      AdoptingStrands(w, l.choice, n, replicas);
    } else {
      OtherOperationStrands(w, l.choice, n, replicas);
    }
    hide OpStep, Inv, Stranded;
  }

  // Once cut, nothing repairs it: as long as autoscaling stays off and another version is wanted,
  // no pass ever restores the replicas; the version keeps them until it is scaled to zero.
  lemma {:induction false} CutIsNeverRepaired(w: World, run: seq<Label>, n: Name, replicas: nat)
    requires Inv(w) && Stranded(w, n, replicas)
    requires forall k :: 0 <= k < |run| && run[k].Edit? ==> Passes(run[k].rsd, n)
    ensures Stranded(Exec(w, run), n, replicas)
    decreases |run|
  {
    if run != [] {
      CutIsNeverRepaired(w, run[..|run| - 1], n, replicas);
      RunKeepsInvariant(w, run[..|run| - 1]);
      StepStrands(Exec(w, run[..|run| - 1]), run[|run| - 1], n, replicas);
    }
  }

  // --- It is reached ---

  const Autoscaling := Spec("v2").(autoscaling := true)
  const Recorded1 := V1.(id := Some("dp_1"))

  // What matters about the world while the run below comes to its cut.
  ghost predicate Scene(w: World, rsd: Rsd, versions: map<Name, Version>, hpas: set<Name>, phase: Phase) {
    && w.rsd == rsd && w.server == Routed && w.versions == versions && w.hpas == hpas && w.clock == 0
    && w.phase == phase
  }

  lemma RecordFirst(w: World)
    requires w == At0("v1", Routed, map["v1" := V1], Recording(Spec("v1"), map[], "dp_1"), {"v1"})
    ensures Scene(Step(w, Op(Anything)), Spec("v1"), map["v1" := Recorded1], {}, Confirming(Spec("v1"), map[], "dp_1"))
  {
  }

  lemma StopScene(w: World, rsd: Rsd, versions: map<Name, Version>, hpas: set<Name>, phase: Phase)
    requires Scene(w, rsd, versions, hpas, phase) && !phase.Released?
    ensures Scene(Step(w, Crash), rsd, versions, hpas, Idle)
  {
  }

  // The first version comes to being registered.
  lemma RegisterFirstVersion(w0: World) returns (run: seq<Label>)
    requires w0 == At0("v1", Empty, map[], Idle, {})
    ensures Exec(w0, run) == At0("v1", Routed, map["v1" := V1], Recording(Spec("v1"), map[], "dp_1"), {"v1"})
  {
    run := AdoptNewVersion(w0, [], w0, "v1");
    var w := At0("v1", Empty, map["v1" := V1], Querying(Spec("v1")), {"v1"});
    var u := w.(phase := Registering(Spec("v1"), map[], false));
    PlanFirst(w, u);
    run := Then(w0, run, w, Op(Anything.(ready := true)), u);
    w := u.(phase := Recording(Spec("v1"), map[], "dp_1"), server := Routed);
    RegisterFirst(u, w);
    run := Then(w0, run, u, Op(Anything.(newId := "dp_1")), w);
  }

  // It is recorded, and the pass stops.
  lemma RecordFirstVersion(w0: World) returns (run: seq<Label>)
    requires w0 == At0("v1", Empty, map[], Idle, {})
    ensures Scene(Exec(w0, run), Spec("v1"), map["v1" := Recorded1], {}, Idle)
  {
    run := RegisterFirstVersion(w0);
    RecordFirst(Exec(w0, run));
    hide *;
    ExecSnoc(w0, run, Op(Anything));
    run := run + [Op(Anything)];
    StopScene(Exec(w0, run), Spec("v1"), map["v1" := Recorded1], {}, Confirming(Spec("v1"), map[], "dp_1"));
    ExecSnoc(w0, run, Crash);
    run := run + [Crash];
  }

  // The write that adopts the second version, and what it leaves.
  function Adoption(rsd: Rsd, versions: map<Name, Version>): Write {
    if "v2" in versions then RestoreScale("v2", rsd.replicas) else Create("v2", rsd.replicas)
  }

  function AdoptedIn(rsd: Rsd, versions: map<Name, Version>): map<Name, Version> {
    versions["v2" :=
      if "v2" in versions then versions["v2"].(replicas := rsd.replicas) else Version("v2", 0, rsd.replicas, None, None)]
  }

  // The first version is recorded, and the second, if there, is not.
  ghost predicate OneRecorded(versions: map<Name, Version>) {
    && "v1" in versions && versions["v1"].id.Some? && versions.Keys <= {"v1", "v2"}
    && ("v2" in versions ==> versions["v2"].id.None? && versions["v2"].removeAt.None?)
  }

  lemma BeginScene(w: World, rsd: Rsd, versions: map<Name, Version>, hpas: set<Name>)
    requires Scene(w, rsd, versions, hpas, Idle) && OneRecorded(versions) && "v2" !in hpas
    requires rsd.deletedAt.None? && rsd.desired == "v2"
    ensures Scene(Step(w, Begin(false)), rsd, versions, hpas, Adopting(rsd, [Adoption(rsd, versions)]))
  {
  }

  lemma AdoptScene(w: World, rsd: Rsd, versions: map<Name, Version>, hpas: set<Name>)
    requires Scene(w, rsd, versions, hpas, Adopting(rsd, [Adoption(rsd, versions)]))
    ensures Scene(Step(w, Op(Anything)), rsd, AdoptedIn(rsd, versions), hpas, Adopting(rsd, []))
  {
  }

  lemma CheckScene(w: World, rsd: Rsd, versions: map<Name, Version>, hpas: set<Name>)
    requires Scene(w, rsd, versions, hpas, Adopting(rsd, [])) && "v1" in versions && rsd.desired == "v2"
    ensures Scene(Step(Step(w, Op(Anything)), Op(Anything)), rsd, versions, hpas, Querying(rsd))
  {
  }

  lemma PlanScene(w: World, rsd: Rsd, versions: map<Name, Version>, hpas: set<Name>) returns (c: Choice)
    requires Scene(w, rsd, versions, hpas, Querying(rsd)) && OneRecorded(versions) && rsd.desired == "v2"
    ensures
      Scene(Step(w, Op(c)), rsd, versions, hpas, Planning(rsd, Rollout, UsageOf(Routed, Rollout), Some("v2")))
  {
    var owned := [versions["v1"].id.value];
    assert ListsOwned(owned, versions) by {
      assert versions["v1"].id == Some(owned[0]);
    }
    c := Anything.(owned := owned);
    hide UsageOf, ListsOwned;
  }

  // A pass whose version is not ready comes to planning its cleanup.
  lemma ComesToPlan(w0: World, run: seq<Label>, rsd: Rsd, found: map<Name, Version>, hpas: set<Name>)
    returns (longer: seq<Label>)
    requires Scene(Exec(w0, run), rsd, found, hpas, Idle) && OneRecorded(found) && "v2" !in hpas
    requires rsd.deletedAt.None? && rsd.desired == "v2"
    ensures
      Scene(Exec(w0, longer), rsd, AdoptedIn(rsd, found), hpas,
        Planning(rsd, Rollout, UsageOf(Routed, Rollout), Some("v2")))
  {
    AdoptedRecorded(rsd, found);
    hide *;
    BeginScene(Exec(w0, run), rsd, found, hpas);
    ExecSnoc(w0, run, Begin(false));
    longer := run + [Begin(false)];
    AdoptScene(Exec(w0, longer), rsd, found, hpas);
    ExecSnoc(w0, longer, Op(Anything));
    longer := longer + [Op(Anything)];
    CheckScene(Exec(w0, longer), rsd, AdoptedIn(rsd, found), hpas);
    ExecSnoc(w0, longer, Op(Anything));
    longer := longer + [Op(Anything)];
    ExecSnoc(w0, longer, Op(Anything));
    longer := longer + [Op(Anything)];
    var c := PlanScene(Exec(w0, longer), rsd, AdoptedIn(rsd, found), hpas);
    ExecSnoc(w0, longer, Op(c));
    longer := longer + [Op(c)];
  }

  lemma AdoptedRecorded(rsd: Rsd, versions: map<Name, Version>)
    requires OneRecorded(versions)
    ensures OneRecorded(AdoptedIn(rsd, versions)) && "v1" in AdoptedIn(rsd, versions)
  {
  }

  const V2Adopted := Version("v2", 0, 1, None, None)
  const Found := map["v1" := Recorded1, "v2" := V2Adopted]
  const Resized := map["v1" := Recorded1.(replicas := 3), "v2" := V2Adopted]
  const Order: seq<Name> := ["v1"]

  // The first version is in use: a pass of `rsd` plans just its autoscaler.
  lemma PlansAutoscaler(w: World, rsd: Rsd, versions: map<Name, Version>, hpas: set<Name>)
    requires Scene(w, rsd, versions, hpas, Planning(rsd, Rollout, UsageOf(Routed, Rollout), Some("v2")))
    requires versions == Found || versions == Resized
    ensures IsNewestFirst(Order, versions, Some("v2"))
    ensures
      var p, view := Pass(ReplicaSets, rsd, Rollout, 0), View(versions, UsageOf(Routed, Rollout), hpas);
      && PlannedJob(w, Order) == JobFor(p, view, Order)
      && PassWrites(p, view, Order, 0) == ActiveHpaWrites(p, view, "v1")
  {
    var p, view := Pass(ReplicaSets, rsd, Rollout, 0), View(versions, UsageOf(Routed, Rollout), hpas);
    assert Routed.routes["greeter"] == "dp_1";
    assert UsageFor(view.usage, versions["v1"]).Some? && Judge(p, view.usage, versions["v1"]).Blocked?;
    assert Order[1..] == [];
    assert VersionWrites(p, view, versions["v1"], 0) == ActiveHpaWrites(p, view, "v1");
  }

  lemma PlanCleanup(w: World, rsd: Rsd, versions: map<Name, Version>, hpas: set<Name>)
    requires Scene(w, rsd, versions, hpas, Planning(rsd, Rollout, UsageOf(Routed, Rollout), Some("v2")))
    requires IsNewestFirst(Order, versions, Some("v2"))
    ensures
      var u := Step(w, Op(Anything.(order := Order)));
      Scene(u, rsd, versions, hpas, Cleaning(rsd, Rollout, PlannedJob(w, Order)))
  {
    PlanningStep(w, Anything.(order := Order));
    hide Step, PlannedJob, IsNewestFirst, UsageOf;
  }

  lemma EnsureScene(w: World, rsd: Rsd, versions: map<Name, Version>, job: Job)
    requires Scene(w, rsd, versions, {}, Cleaning(rsd, Rollout, job))
    requires job.queue == [EnsureHpa("v1")] && !job.settled
    ensures Scene(Step(Step(w, Op(Anything)), Op(Anything)), rsd, versions, {"v1"}, Idle)
  {
    CleaningStep(w, Anything);
    var u := Step(w, Op(Anything));
    assert u.phase.job.queue == [] && u.hpas == {"v1"};
  }

  // With autoscaling on, the pass gives the first version an autoscaler.
  lemma GetsAutoscaler(w0: World, run: seq<Label>) returns (longer: seq<Label>)
    requires Scene(Exec(w0, run), Autoscaling, Found, {}, Planning(Autoscaling, Rollout, UsageOf(Routed, Rollout), Some("v2")))
    ensures Scene(Exec(w0, longer), Autoscaling, Found, {"v1"}, Idle)
  {
    var w := Exec(w0, run);
    PlansAutoscaler(w, Autoscaling, Found, {});
    PlanCleanup(w, Autoscaling, Found, {});
    var job := PlannedJob(w, Order);
    assert job.queue == [EnsureHpa("v1")] && !job.settled;
    hide *;
    var plan := Op(Anything.(order := Order));
    ExecSnoc(w0, run, plan);
    longer := run + [plan];
    EnsureScene(Exec(w0, longer), Autoscaling, Found, job);
    ExecSnoc(w0, longer, Op(Anything));
    longer := longer + [Op(Anything)];
    ExecSnoc(w0, longer, Op(Anything));
    longer := longer + [Op(Anything)];
  }

  lemma ResizeScene(w: World)
    requires Scene(w, Autoscaling, Found, {"v1"}, Idle)
    ensures Scene(Step(w, Autoscale("v1", 3)), Autoscaling, Resized, {"v1"}, Idle)
  {
    assert Found["v1" := Found["v1"].(replicas := 3)] == Resized;
  }

  lemma EditScene(w: World, was: Rsd, rsd: Rsd, versions: map<Name, Version>, hpas: set<Name>)
    requires Scene(w, was, versions, hpas, Idle) && was.deletedAt.None?
    ensures Scene(Step(w, Edit(rsd)), rsd, versions, hpas, Idle)
  {
  }

  // The autoscaler resizes the first version, and autoscaling is switched off.
  lemma ComesToCut(w0: World) returns (run: seq<Label>)
    requires w0 == At0("v1", Empty, map[], Idle, {})
    ensures
      Scene(Exec(w0, run), Spec("v2"), Resized, {"v1"},
        Planning(Spec("v2"), Rollout, UsageOf(Routed, Rollout), Some("v2")))
  {
    assert AdoptedIn(Autoscaling, map["v1" := Recorded1]) == Found && AdoptedIn(Spec("v2"), Resized) == Resized;
    assert OneRecorded(map["v1" := Recorded1]) && OneRecorded(Resized);
    assert Autoscaling.deletedAt.None? && Autoscaling.desired == "v2";
    assert Spec("v2").deletedAt.None? && Spec("v2").desired == "v2" && Spec("v1").deletedAt.None?;
    hide *;
    run := RecordFirstVersion(w0);
    EditScene(Exec(w0, run), Spec("v1"), Autoscaling, map["v1" := Recorded1], {});
    ExecSnoc(w0, run, Edit(Autoscaling));
    run := run + [Edit(Autoscaling)];
    run := ComesToPlan(w0, run, Autoscaling, map["v1" := Recorded1], {});
    run := GetsAutoscaler(w0, run);
    ResizeScene(Exec(w0, run));
    ExecSnoc(w0, run, Autoscale("v1", 3));
    run := run + [Autoscale("v1", 3)];
    EditScene(Exec(w0, run), Autoscaling, Spec("v2"), Resized, {"v1"});
    ExecSnoc(w0, run, Edit(Spec("v2")));
    run := run + [Edit(Spec("v2"))];
    run := ComesToPlan(w0, run, Spec("v2"), Resized, {"v1"});
  }

  lemma CutScene(w: World, job: Job)
    requires Scene(w, Spec("v2"), Resized, {"v1"}, Cleaning(Spec("v2"), Rollout, job))
    requires job.queue == [DeleteHpa("v1"), RestoreScale("v1", 1)]
    ensures Scene(Step(Step(w, Op(Anything)), Crash), Spec("v2"), Resized, {}, Idle)
  {
    CleaningStep(w, Anything);
    var u := Step(w, Op(Anything));
    assert u.hpas == {} && u.versions == Resized;
  }

  // A run from a fresh RestateDeployment that comes to planning a cleanup, issues its first write
  // and stops: that is a cut the repeated pass does not make up for, and it leaves a version in
  // use at the autoscaler's size without an autoscaler.
  lemma CutIsReached() returns (w0: World, before: seq<Label>, run: seq<Label>)
    ensures Initial(w0) && run == before + [Op(Anything.(order := Order)), Op(Anything), Crash]
    ensures
      var w := Exec(w0, before);
      && w.phase.Planning? && w.phase.mode.Rollout? && IsNewestFirst(Order, w.versions, w.phase.except)
      && var view := View(w.versions, w.phase.snapshot, w.hpas);
         CutsRestore(view, PassWrites(Pass(ReplicaSets, w.phase.rsd, Rollout, w.clock), view, Order, 0), 1)
    ensures
      var w := Exec(w0, run);
      && Stranded(w, "v1", 3) && "v1" in w.versions && w.versions["v1"].replicas == 3 && w.rsd.replicas == 1
      && Own("v1") in w.server.endpoints && Needed(w.server, w.server.endpoints[Own("v1")])
  {
    w0 := At0("v1", Empty, map[], Idle, {});
    before := ComesToCut(w0);
    run := CutThere(w0, before);
    CutIsOne(Exec(w0, before));
    assert Routed.routes["greeter"] == "dp_1";
    hide Exec, PlannedJob, UsageOf;
  }

  lemma PlansRestore(w: World)
    requires Scene(w, Spec("v2"), Resized, {"v1"}, Planning(Spec("v2"), Rollout, UsageOf(Routed, Rollout), Some("v2")))
    ensures PlannedJob(w, Order).queue == [DeleteHpa("v1"), RestoreScale("v1", 1)]
  {
    PlansAutoscaler(w, Spec("v2"), Resized, {"v1"});
    RestoreWrites(Pass(ReplicaSets, Spec("v2"), Rollout, 0), View(Resized, UsageOf(Routed, Rollout), {"v1"}));
    hide UsageOf, PassWrites, ActiveHpaWrites, IsNewestFirst, PlannedJob;
  }

  lemma RestoreWrites(p: Pass, view: View)
    requires p.flavour.ReplicaSets? && p.mode.Rollout? && !p.rsd.autoscaling && "v1" in view.hpas
    ensures ActiveHpaWrites(p, view, "v1") == [DeleteHpa("v1"), RestoreScale("v1", p.rsd.replicas)]
  {
  }

  lemma ThreeMore(run: seq<Label>, a: Label, b: Label, c: Label)
    ensures run + [a] + [b] + [c] == run + [a, b, c]
  {
  }

  lemma CutThere(w0: World, before: seq<Label>) returns (run: seq<Label>)
    requires
      Scene(Exec(w0, before), Spec("v2"), Resized, {"v1"},
        Planning(Spec("v2"), Rollout, UsageOf(Routed, Rollout), Some("v2")))
    ensures run == before + [Op(Anything.(order := Order)), Op(Anything), Crash]
    ensures Scene(Exec(w0, run), Spec("v2"), Resized, {}, Idle)
  {
    var w := Exec(w0, before);
    var job := PlannedJob(w, Order);
    hide *;
    PlansAutoscaler(w, Spec("v2"), Resized, {"v1"});
    PlansRestore(w);
    PlanCleanup(w, Spec("v2"), Resized, {"v1"});
    var plan := Op(Anything.(order := Order));
    ExecSnoc(w0, before, plan);
    run := before + [plan];
    CutScene(Exec(w0, run), job);
    ExecSnoc(w0, run, Op(Anything));
    run := run + [Op(Anything)];
    ExecSnoc(w0, run, Crash);
    run := run + [Crash];
    ThreeMore(before, plan, Op(Anything), Crash);
  }

  lemma CutIsOne(w: World)
    requires Scene(w, Spec("v2"), Resized, {"v1"}, Planning(Spec("v2"), Rollout, UsageOf(Routed, Rollout), Some("v2")))
    ensures IsNewestFirst(Order, w.versions, w.phase.except)
    ensures
      var view := View(w.versions, w.phase.snapshot, w.hpas);
      CutsRestore(view, PassWrites(Pass(ReplicaSets, w.phase.rsd, Rollout, w.clock), view, Order, 0), 1)
  {
    PlansAutoscaler(w, Spec("v2"), Resized, {"v1"});
    RestoreWrites(Pass(ReplicaSets, Spec("v2"), Rollout, 0), View(Resized, UsageOf(Routed, Rollout), {"v1"}));
    hide UsageOf, PassWrites, ActiveHpaWrites, IsNewestFirst, PlannedJob;
  }
}
