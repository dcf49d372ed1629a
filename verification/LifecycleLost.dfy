// Exactly which versions a rollout mistakes for unneeded: those whose registration was lost
// between registering the endpoint and recording its id.
module LifecycleLost {
  import opened Base
  import opened Usage
  import opened Policy
  import opened Restate
  import opened Registration
  import opened Cleanup
  import opened Lifecycle
  import opened LifecycleInvariant
  import opened LifecycleCleaning
  import opened LifecycleSafety

  // A version whose registration was lost does not carry the id of its endpoint.
  ghost predicate LostUnrecorded(w: World) {
    forall n :: n in w.lost && Own(n) in w.server.endpoints && n in w.versions ==>
      w.versions[n].id != Some(w.server.endpoints[Own(n)])
  }

  // An id in the snapshot that was minted for a registered endpoint of ours is its current id.
  ghost predicate SnapshotCurrent(s: Server, snapshot: UsageMap, except: Option<Name>) {
    forall id, n ::
      (id in snapshot && id in s.minted && s.minted[id] == Own(n) && Some(n) != except && Own(n) in s.endpoints)
      ==> s.endpoints[Own(n)] == id
  }

  // The snapshot a pass works from, and the version it leaves out.
  ghost function Snapshot(phase: Phase): Option<(UsageMap, Option<Name>)> {
    match phase
    case Registering(rsd, snapshot, _) => Some((snapshot, Some(rsd.desired)))
    case Recording(rsd, snapshot, _) => Some((snapshot, Some(rsd.desired)))
    case Confirming(rsd, snapshot, _) => Some((snapshot, Some(rsd.desired)))
    case Deriving(_, _, snapshot) => Some((snapshot, None))
    case Planning(_, _, snapshot, except) => Some((snapshot, except))
    case _ => None
  }

  ghost predicate Traced(w: World) {
    && LostUnrecorded(w)
    && (Snapshot(w.phase).Some? ==> SnapshotCurrent(w.server, Snapshot(w.phase).value.0, Snapshot(w.phase).value.1))
  }

  // No endpoint of ours but `cur` gains an id.
  ghost predicate KeepsOwn(s: Server, t: Server, cur: Option<Name>) {
    && (forall n :: Some(n) != cur && Own(n) in t.endpoints ==>
          Own(n) in s.endpoints && t.endpoints[Own(n)] == s.endpoints[Own(n)])
    && (forall id, n :: Some(n) != cur && id in t.minted && t.minted[id] == Own(n) ==>
          id in s.minted && s.minted[id] == Own(n))
  }

  lemma EnvironmentKeepsOwn(s: Server, a: EnvAction)
    requires Consistent(s)
    ensures KeepsOwn(s, Environment(s, a), None)
  {
    EnvironmentKeepsOwnership(s, a);
  }

  lemma RegisterKeepsOwn(s: Server, cur: Name, services: set<Service>, force: bool, newId: DeploymentId)
    requires Own(cur) in s.endpoints || newId !in s.minted
    ensures KeepsOwn(s, Restate.Register(s, Own(cur), services, force, newId).0, Some(cur))
  {
  }

  lemma SnapshotStaysCurrent(s: Server, t: Server, cur: Option<Name>, snapshot: UsageMap, except: Option<Name>)
    requires KeepsOwn(s, t, cur) && (cur == None || cur == except) && SnapshotCurrent(s, snapshot, except)
    ensures SnapshotCurrent(t, snapshot, except)
  {
    assert forall n :: Some(n) != except ==> Some(n) != cur;
  }

  lemma UsageIsCurrent(s: Server, mode: CleanupMode, except: Option<Name>)
    requires Consistent(s)
    ensures SnapshotCurrent(s, UsageOf(s, mode), except)
  {
  }

  // A step that records nothing moves versions and endpoints of ours only by dropping them.
  lemma LostStaysUnrecorded(w: World, u: World)
    requires LostUnrecorded(w) && u.lost == w.lost && KeepsOwn(w.server, u.server, None)
    requires forall n :: n in u.versions ==>
      u.versions[n].id.None? || (n in w.versions && u.versions[n].id == w.versions[n].id)
    ensures LostUnrecorded(u)
  {
  }

  lemma WriteStaysTraced(w: World, x: Write)
    requires Traced(w) && IdsAreOwn(w) && !x.RecordId?
    ensures Traced(Apply(w, x)) && Apply(w, x).lost == w.lost
  {
    var u := Apply(w, x);
    assert KeepsOwn(w.server, u.server, None);
    if Snapshot(w.phase).Some? {
      SnapshotStaysCurrent(w.server, u.server, None, Snapshot(w.phase).value.0, Snapshot(w.phase).value.1);
    }
    LostStaysUnrecorded(w, u);
  }

  lemma CrashStaysTraced(w: World)
    requires Inv(w) && Traced(w)
    ensures Traced(Step(w, Crash))
  {
  }

  lemma NewIdIsUnrecorded(w: World, u: World, cur: Name)
    requires LostUnrecorded(w) && IdsAreOwn(w) && u.versions == w.versions && u.lost == w.lost
    requires KeepsOwn(w.server, u.server, Some(cur))
    requires Own(cur) in u.server.endpoints ==>
      || u.server.endpoints[Own(cur)] !in w.server.minted
      || (Own(cur) in w.server.endpoints && u.server.endpoints[Own(cur)] == w.server.endpoints[Own(cur)])
    ensures LostUnrecorded(u)
  {
  }

  lemma RegisteredId(s: Server, cur: Name, services: set<Service>, force: bool, newId: DeploymentId)
    ensures
      var t := Restate.Register(s, Own(cur), services, force, newId).0;
      && Own(cur) in t.endpoints
      && t.endpoints[Own(cur)] == if Own(cur) in s.endpoints then s.endpoints[Own(cur)] else newId
  {
  }

  lemma RegisteringStaysTraced(w: World, c: Choice)
    requires IdsAreOwn(w) && Traced(w) && w.phase.Registering?
    ensures Traced(Step(w, Op(c)))
  {
    var cur := w.phase.rsd.desired;
    if Own(cur) in w.server.endpoints || c.newId !in w.server.minted {
      var u := Step(w, Op(c));
      RegisteringStep(w, c);
      RegisterKeepsOwn(w.server, cur, Services(w, cur), w.phase.force, c.newId);
      RegisteredId(w.server, cur, Services(w, cur), w.phase.force, c.newId);
      hide Restate.Register, Take, Step;
      SnapshotStaysCurrent(w.server, u.server, Some(cur), w.phase.snapshot, Some(cur));
      NewIdIsUnrecorded(w, u, cur);
      hide LostUnrecorded, SnapshotCurrent, KeepsOwn;
    }
  }

  lemma RecordingStaysTraced(w: World, c: Choice)
    requires w.phase.Recording? && w.phase.rsd.desired in w.versions && Traced(w)
    ensures Traced(Step(w, Op(c)))
  {
    var n := w.phase.rsd.desired;
    var u := Step(w, Op(c));
    assert u.versions == w.versions[n := w.versions[n].(id := Some(w.phase.id))];
    assert u.server == w.server && u.lost == w.lost - {n};
  }

  lemma ConfirmingStaysTraced(w: World, c: Choice)
    requires Inv(w) && Traced(w) && w.phase.Confirming?
    ensures Traced(Step(w, Op(c)))
  {
    var rsd, snapshot, id := w.phase.rsd, w.phase.snapshot, w.phase.id;
    assert SnapshotCurrent(w.server, snapshot[id := DeploymentUsage(true, 0, 0)], Some(rsd.desired));
    UnrecordedIgnoresPhase(w, Step(w, Op(c)));
    hide SnapshotCurrent, LostUnrecorded, ConfirmedLatest;
  }

  lemma QueryingStaysTraced(w: World, c: Choice)
    requires Consistent(w.server) && Traced(w) && w.phase.Querying?
    ensures Traced(Step(w, Op(c)))
  {
    UsageIsCurrent(w.server, Rollout, Some(w.phase.rsd.desired));
    hide UsageOf, PlanRegistration, SnapshotCurrent, LostUnrecorded, IsNewestFirst, ListsOwned;
    UnrecordedIgnoresPhase(w, Step(w, Op(c)));
  }

  lemma UnrecordedIgnoresPhase(w: World, u: World)
    ensures u == w.(phase := u.phase) && LostUnrecorded(w) ==> LostUnrecorded(u)
  {
  }

  lemma AdoptingStaysTraced(w: World, c: Choice)
    requires Inv(w) && Traced(w) && w.phase.Adopting?
    ensures Traced(Step(w, Op(c)))
  {
    if w.phase.writes != [] {
      AdoptingStep(w, c);
      assert w.phase.writes[0] in w.phase.writes;
      WriteStaysTraced(w, w.phase.writes[0]);
      hide Apply, Step;
    }
  }

  lemma CleaningStaysTraced(w: World, c: Choice)
    requires w.phase.Cleaning? && IdsAreOwn(w) && QueueClassified(w, w.phase.rsd, w.phase.job) && Traced(w)
    ensures Traced(Step(w, Op(c)))
  {
    var job := w.phase.job;
    if job.queue != [] {
      CleaningStep(w, c);
      assert job.queue[0] in job.queue;
      var rest := w.(phase := Cleaning(w.phase.rsd, w.phase.mode, job.(queue := job.queue[1..])));
      UnrecordedIgnoresPhase(w, rest);
      WriteStaysTraced(rest, job.queue[0]);
      hide Apply, Step, LostUnrecorded, SnapshotCurrent;
    }
  }

  lemma MovingStaysTraced(w: World, c: Choice)
    requires Consistent(w.server) && Traced(w)
    requires w.phase.Checking? || w.phase.QueryingForDeletion? || w.phase.Deriving? || w.phase.Planning?
    ensures Traced(Step(w, Op(c)))
  {
    if w.phase.QueryingForDeletion? {
      UsageIsCurrent(w.server, ModeFor(w.phase.rsd, w.clock), None);
    }
    UnrecordedIgnoresPhase(w, Step(w, Op(c)));
    hide UsageOf, SnapshotCurrent, LostUnrecorded, IsNewestFirst, JobFor;
  }

  lemma OpStaysTraced(w: World, c: Choice)
    requires Inv(w) && Traced(w)
    ensures Traced(Step(w, Op(c)))
  {
    assert Consistent(w.server) && IdsAreOwn(w) && PhaseOk(w);
    hide Inv, Traced, Consistent, IdsAreOwn, QueueClassified;
    match w.phase
    case Idle =>
    case Released(_) =>
    case Adopting(_, _) => AdoptingStaysTraced(w, c);
    case Querying(_) => QueryingStaysTraced(w, c);
    case Registering(_, _, _) => RegisteringStaysTraced(w, c);
    case Recording(_, _, _) => RecordingStaysTraced(w, c);
    case Confirming(_, _, _) => ConfirmingStaysTraced(w, c);
    case Cleaning(_, _, _) => CleaningStaysTraced(w, c);
    case _ => MovingStaysTraced(w, c);
  }

  lemma StepStaysTraced(w: World, l: Label)
    requires Inv(w) && Traced(w)
    ensures Traced(Step(w, l))
  {
    match l
    case Env(a) =>
      EnvironmentKeepsOwn(w.server, a);
      LostStaysUnrecorded(w, Step(w, l));
      if Snapshot(w.phase).Some? {
        SnapshotStaysCurrent(w.server, Step(w, l).server, None, Snapshot(w.phase).value.0, Snapshot(w.phase).value.1);
      }
    case Op(c) => OpStaysTraced(w, c);
    case Crash => CrashStaysTraced(w);
    case _ =>
  }

  lemma {:induction false} RunStaysTraced(w0: World, run: seq<Label>)
    requires Initial(w0)
    ensures Inv(Exec(w0, run)) && Traced(Exec(w0, run))
    decreases |run|
  {
    if run == [] {
      InitialIsInvariant(w0);
    } else {
      var before := run[..|run| - 1];
      RunStaysTraced(w0, before);
      hide Inv, Traced, Step;
      StepStaysTraced(Exec(w0, before), run[|run| - 1]);
      StepKeepsInvariant(Exec(w0, before), run[|run| - 1]);
    }
  }

  // --- What that decides ---

  lemma VerdictDecides(w: World, n: Name)
    requires Inv(w) && Traced(w) && w.phase.Planning? && w.phase.mode.Rollout?
    requires n in w.versions && Some(n) != w.phase.except && Own(n) in w.server.endpoints
    requires Needed(w.server, w.server.endpoints[Own(n)])
    ensures
      var p := Pass(ReplicaSets, w.phase.rsd, Rollout, w.clock);
      var verdict := Judge(p, w.phase.snapshot, w.versions[n]);
      if n in w.lost then verdict.Due? else verdict.Blocked?
  {
    var id := w.server.endpoints[Own(n)];
    if n in w.lost {
      assert w.versions[n].id != Some(id);
      assert UsageFor(w.phase.snapshot, w.versions[n]).None?;
    } else {
      assert w.versions[n].id == Some(id) && id in w.phase.snapshot;
    }
  }

  // Rollout safety, exactly: among the versions Restate still needs when a rollout plans its
  // cleanup, those it is going to tear down are the ones whose registration was lost, and it
  // leaves every other one active.
  lemma TearsDownNeededExactlyWhenLost(w0: World, run: seq<Label>, order: seq<Name>, n: Name)
    requires Initial(w0)
    requires
      var w := Exec(w0, run);
      && w.phase.Planning? && w.phase.mode.Rollout? && IsNewestFirst(order, w.versions, w.phase.except)
      && n in order && Own(n) in w.server.endpoints && Needed(w.server, w.server.endpoints[Own(n)])
    ensures
      var w := Exec(w0, run);
      && (n in PlannedJob(w, order).due <==> n in w.lost)
      && (n in PlannedJob(w, order).active <==> n !in w.lost)
  {
    RunStaysTraced(w0, run);
    VerdictDecides(Exec(w0, run), n);
  }

  // The version's deadline lies in the past.
  ghost predicate Drained(v: Version, now: Time) {
    v.removeAt.Some? && v.removeAt.value.At? && v.removeAt.value.time < now
  }

  lemma VerdictOnUndrained(w: World, n: Name)
    requires Inv(w) && Traced(w) && w.phase.Planning? && !w.phase.mode.ForceDeleting?
    requires n in w.versions && Some(n) != w.phase.except && Own(n) in w.server.endpoints
    requires !Drained(w.versions[n], w.clock)
    ensures
      var p := Pass(ReplicaSets, w.phase.rsd, w.phase.mode, w.clock);
      Judge(p, w.phase.snapshot, w.versions[n]).Due? <==> n in w.lost
  {
    var id := w.server.endpoints[Own(n)];
    if n in w.lost {
      assert w.versions[n].id != Some(id);
      assert UsageFor(w.phase.snapshot, w.versions[n]).None?;
    } else {
      assert w.versions[n].id == Some(id) && id in w.phase.snapshot;
    }
  }

  // The drain window, exactly: among the registered versions whose deadline has not passed, or
  // that have none, those a pass is going to take for due, unless it forces, are the ones whose
  // registration was lost.
  lemma SkipsDrainExactlyWhenLost(w0: World, run: seq<Label>, order: seq<Name>, n: Name)
    requires Initial(w0)
    requires
      var w := Exec(w0, run);
      && w.phase.Planning? && !w.phase.mode.ForceDeleting? && IsNewestFirst(order, w.versions, w.phase.except)
      && n in order && Own(n) in w.server.endpoints && !Drained(w.versions[n], w.clock)
    ensures n in PlannedJob(Exec(w0, run), order).due <==> n in Exec(w0, run).lost
  {
    RunStaysTraced(w0, run);
    VerdictOnUndrained(Exec(w0, run), n);
  }

  // A deletion deregisters what is due and known to be registered before it deletes it.
  lemma {:induction false} DueIsDeregistered(p: Pass, view: View, order: seq<Name>, h: nat, n: Name)
    requires Named(view) && n in order && n in view.versions && p.mode.IsDeleting()
    requires Judge(p, view.usage, view.versions[n]).Due? && UsageFor(view.usage, view.versions[n]).Some?
    ensures Deregister(n, view.versions[n].id.value) in PassWrites(p, view, order, h)
    decreases |order|
  {
    if order[0] !in view.versions {
      DueIsDeregistered(p, view, order[1..], h, n);
    } else {
      var v := view.versions[order[0]];
      var turn := VersionWrites(p, view, v, h);
      if order[0] == n {
        assert turn[|turn| - 2] == Deregister(n, v.id.value);
      } else {
        DueIsDeregistered(p, view, order[1..], h + if Retains(p, view.usage, v, h) then 1 else 0, n);
      }
    }
  }

  // What a deletion leaves registered, exactly: of the registered versions it is going to delete,
  // it deregisters those whose registration was not lost.
  lemma DeregistersExactlyUnlessLost(w0: World, run: seq<Label>, order: seq<Name>, n: Name)
    requires Initial(w0)
    requires
      var w := Exec(w0, run);
      && w.phase.Planning? && w.phase.mode.IsDeleting() && IsNewestFirst(order, w.versions, w.phase.except)
      && Own(n) in w.server.endpoints && n in PlannedJob(w, order).due
    ensures
      var w := Exec(w0, run);
      Deregister(n, w.server.endpoints[Own(n)]) in PlannedJob(w, order).queue <==> n !in w.lost
  {
    RunStaysTraced(w0, run);
    var w := Exec(w0, run);
    var p := Pass(ReplicaSets, w.phase.rsd, w.phase.mode, w.clock);
    var view := View(w.versions, w.phase.snapshot, w.hpas);
    if n in w.lost {
      WritesMatchVerdicts(p, view, order, 0);
    } else {
      DueIsDeregistered(p, view, order, 0, n);
    }
  }

  // Crash-safe teardown, exactly: after any prefix of any run, a deployment Restate holds for one
  // of our endpoints is on that version's object unless its registration was lost, or would be
  // if the pass stopped now.
  lemma RegisteredExactlyUnlessLost(w0: World, run: seq<Label>, n: Name)
    requires Initial(w0) && Own(n) in Exec(w0, run).server.endpoints
    ensures
      var w := Exec(w0, run);
      Recorded(w, n) == Some(w.server.endpoints[Own(n)]) <==>
        n !in w.lost && !(LosesRegistration(w) && n == w.phase.rsd.desired)
  {
    RunStaysTraced(w0, run);
  }
}
