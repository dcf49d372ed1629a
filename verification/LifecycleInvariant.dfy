// What every step of the lifecycle keeps.
module LifecycleInvariant {
  import opened Base
  import opened Usage
  import opened Policy
  import opened Restate
  import opened Registration
  import opened Cleanup
  import opened Lifecycle

  // The id of a registered own endpoint is on its version object, except between registering
  // it and recording it.
  ghost predicate EndpointsRecorded(w: World) {
    forall n :: Own(n) in w.server.endpoints && n !in w.lost ==>
      && n in w.versions
      && (w.versions[n].id == Some(w.server.endpoints[Own(n)])
          || (w.phase.Recording? && n == w.phase.rsd.desired && w.phase.id == w.server.endpoints[Own(n)]))
  }

  // A recorded id was minted for that version's endpoint.
  ghost predicate IdsAreOwn(w: World) {
    forall n :: n in w.versions ==>
      && w.versions[n].name == n
      && (w.versions[n].id.Some? ==>
            w.versions[n].id.value in w.server.minted && w.server.minted[w.versions[n].id.value] == Own(n))
  }

  // A deadline on a version was stamped by the operator, and no completed pass since then
  // adopted the version or found it active.
  ghost predicate DeadlinesStamped(w: World) {
    forall n :: n in w.versions && w.versions[n].removeAt.Some? ==>
      && n in w.stamps && n !in w.disturbed
      && w.versions[n].removeAt == Some(At(w.stamps[n].at + w.stamps[n].delay))
      && w.stamps[n].at <= w.clock
  }

  // A usage snapshot may be stale, but only on the safe side: what is registered is in it, and
  // what it shows quiet still is.
  ghost predicate SnapshotHolds(w: World, snapshot: UsageMap, except: Option<Name>) {
    forall n :: Own(n) in w.server.endpoints && Some(n) != except ==>
      var id := w.server.endpoints[Own(n)];
      && id in snapshot
      && (!snapshot[id].latestForService && snapshot[id].pinned == 0 ==> !Needed(w.server, id))
  }

  // The current version exists and carries no deadline.
  ghost predicate Adopted(w: World, rsd: Rsd) {
    rsd.desired in w.versions && w.versions[rsd.desired].removeAt.None?
  }

  ghost predicate AdoptingOk(w: World, rsd: Rsd, writes: seq<Write>) {
    var n := rsd.desired;
    && (forall x :: x in writes ==>
          x.name == n && (x.Create? || x.RestoreScale? || x.ClearDeadline? || x.DeleteHpa?))
    && (n in w.versions || exists r :: Create(n, r) in writes)
    && (n in w.versions && w.versions[n].removeAt.Some? ==> ClearDeadline(n) in writes)
  }

  // Executing the queue never scales down a version that still has an autoscaler.
  ghost predicate ScalesDownFreely(queue: seq<Write>, hpas: set<Name>)
    decreases |queue|
  {
    queue != [] ==>
      && (queue[0].ScaleToZero? ==> queue[0].name !in hpas)
      && ScalesDownFreely(queue[1..], Effect(View(map[], map[], hpas), queue[0], 0).hpas)
  }

  // The registered endpoints whose ids were not lost.
  ghost function Tracked(w: World): map<Endpoint, DeploymentId> {
    map e | e in w.server.endpoints && (e.Own? ==> e.name !in w.lost) :: w.server.endpoints[e]
  }

  // Executing the queue never deletes a version whose endpoint is registered.
  ghost predicate DeregistersFirst(queue: seq<Write>, endpoints: map<Endpoint, DeploymentId>)
    decreases |queue|
  {
    queue != [] ==>
      && (queue[0].DeleteVersion? ==> Own(queue[0].name) !in endpoints)
      && DeregistersFirst(queue[1..],
           if queue[0].Deregister? then map e | e in endpoints && endpoints[e] != queue[0].id :: endpoints[e]
           else endpoints)
  }

  // Each queued write belongs to the class its version was judged in.
  ghost predicate Classified(
      x: Write, rsd: Rsd, active: set<Name>, due: set<Name>, unstamped: set<Name>,
      minted: map<DeploymentId, Endpoint>) {
    match x
    case EnsureHpa(n) => n in active
    case RestoreScale(n, _) => n in active
    case ClearDeadline(n) => n in active
    case DeleteHpa(n) => n in active || n in due
    case ScaleToZero(n) => n in due
    case Deregister(n, id) => n in due && id in minted && minted[id] == Own(n)
    case DeleteVersion(n) => n in due
    case StampDeadline(n, delay) => n in unstamped && delay == rsd.DrainDelay()
    case _ => false
  }

  ghost predicate DueIsSafe(w: World, mode: CleanupMode, n: Name) {
    Own(n) in w.server.endpoints && n !in w.lost ==>
      && (mode.Rollout? ==> !Needed(w.server, w.server.endpoints[Own(n)]))
      && (!mode.ForceDeleting? ==>
            n in w.versions && w.versions[n].removeAt.Some? && w.versions[n].removeAt.value.At?
            && w.versions[n].removeAt.value.time < w.clock)
  }

  // The classes are disjoint, and a rollout's classes leave the adopted version out.
  ghost predicate ClassesDisjoint(w: World, rsd: Rsd, mode: CleanupMode, job: Job) {
    && job.active !! job.due && job.active !! job.unstamped && job.due !! job.unstamped
    && (mode.Rollout? ==> Adopted(w, rsd) && rsd.desired !in job.active + job.due + job.unstamped)
  }

  ghost predicate QueueClassified(w: World, rsd: Rsd, job: Job) {
    forall x :: x in job.queue ==> Classified(x, rsd, job.active, job.due, job.unstamped, w.server.minted)
  }

  // A still-active version loses its deadline before the pass completes.
  ghost predicate ClearsQueued(w: World, job: Job) {
    forall n :: n in job.active && n in w.versions && w.versions[n].removeAt.Some? ==> ClearDeadline(n) in job.queue
  }

  // A pass that may release the finalizer deletes every version first.
  ghost predicate SettledDeletesAll(w: World, mode: CleanupMode, job: Job) {
    job.settled ==> mode.IsDeleting() && forall n :: n in w.versions ==> DeleteVersion(n) in job.queue
  }

  ghost predicate JobOk(w: World, rsd: Rsd, mode: CleanupMode, job: Job) {
    && ClassesDisjoint(w, rsd, mode, job)
    && QueueClassified(w, rsd, job)
    && (forall n :: n in job.due ==> DueIsSafe(w, mode, n))
    && ClearsQueued(w, job)
    && SettledDeletesAll(w, mode, job)
    && ScalesDownFreely(job.queue, w.hpas)
    && DeregistersFirst(job.queue, Tracked(w))
  }

  ghost predicate PhaseOk(w: World) {
    match w.phase
    case Idle => true
    case Adopting(rsd, writes) => AdoptingOk(w, rsd, writes)
    case Checking(rsd) => Adopted(w, rsd)
    case Querying(rsd) => Adopted(w, rsd)
    case Registering(rsd, snapshot, _) => Adopted(w, rsd) && SnapshotHolds(w, snapshot, Some(rsd.desired))
    case Recording(rsd, snapshot, id) =>
      && Adopted(w, rsd) && SnapshotHolds(w, snapshot, Some(rsd.desired))
      && id in w.server.minted && w.server.minted[id] == Own(rsd.desired)
      && (Own(rsd.desired) in w.server.endpoints ==> w.server.endpoints[Own(rsd.desired)] == id)
    case Confirming(rsd, snapshot, id) =>
      && Adopted(w, rsd) && SnapshotHolds(w, snapshot, Some(rsd.desired))
      && id in w.server.minted && w.server.minted[id] == Own(rsd.desired)
    case QueryingForDeletion(rsd) => rsd.deletedAt.Some?
    case Deriving(rsd, _, snapshot) => rsd.deletedAt.Some? && SnapshotHolds(w, snapshot, None)
    case Planning(rsd, mode, snapshot, except) =>
      && SnapshotHolds(w, snapshot, except)
      && (if mode.Rollout? then except == Some(rsd.desired) && Adopted(w, rsd) else except == None)
    case Cleaning(rsd, mode, job) => JobOk(w, rsd, mode, job)
    // the finalizer is released with nothing left behind
    case Released(clusterGone) => clusterGone || w.versions == map[]
  }

  ghost predicate Inv(w: World) {
    && Consistent(w.server)
    && EndpointsRecorded(w)
    && IdsAreOwn(w)
    && DeadlinesStamped(w)
    && PhaseOk(w)
  }

  lemma InitialIsInvariant(w: World)
    requires Initial(w)
    ensures Inv(w)
  {
  }

  // --- The world outside the operator ---

  lemma SnapshotSurvivesEnvironment(w: World, a: EnvAction, snapshot: UsageMap, except: Option<Name>)
    requires Consistent(w.server) && SnapshotHolds(w, snapshot, except)
    ensures SnapshotHolds(Step(w, Env(a)), snapshot, except)
  {
    EnvironmentKeepsOwnership(w.server, a);
    var s := Environment(w.server, a);
    forall n | Own(n) in s.endpoints && Some(n) != except
      ensures
        var id := s.endpoints[Own(n)];
        id in snapshot && (!snapshot[id].latestForService && snapshot[id].pinned == 0 ==> !Needed(s, id))
    {
      if !Needed(w.server, w.server.endpoints[Own(n)]) {
        QuietIsStable(w.server, a, n);
      }
    }
  }

  lemma {:induction false} FewerEndpointsStillDeregisterFirst(
      queue: seq<Write>, a: map<Endpoint, DeploymentId>, b: map<Endpoint, DeploymentId>)
    requires DeregistersFirst(queue, a)
    requires forall n :: Own(n) in b ==> Own(n) in a && b[Own(n)] == a[Own(n)]
    ensures DeregistersFirst(queue, b)
    decreases |queue|
  {
    if queue != [] {
      var a' := if queue[0].Deregister? then map e | e in a && a[e] != queue[0].id :: a[e] else a;
      var b' := if queue[0].Deregister? then map e | e in b && b[e] != queue[0].id :: b[e] else b;
      FewerEndpointsStillDeregisterFirst(queue[1..], a', b');
    }
  }

  lemma DueSurvivesEnvironment(w: World, a: EnvAction, mode: CleanupMode, n: Name)
    requires Consistent(w.server) && DueIsSafe(w, mode, n)
    ensures DueIsSafe(Step(w, Env(a)), mode, n)
  {
    EnvironmentKeepsOwnership(w.server, a);
    if Own(n) in Environment(w.server, a).endpoints && n !in w.lost && mode.Rollout? {
      QuietIsStable(w.server, a, n);
    }
  }

  lemma EnvironmentKeepsJob(w: World, a: EnvAction, rsd: Rsd, mode: CleanupMode, job: Job)
    requires Consistent(w.server) && JobOk(w, rsd, mode, job)
    ensures JobOk(Step(w, Env(a)), rsd, mode, job)
  {
    EnvironmentKeepsOwnership(w.server, a);
    var u := Step(w, Env(a));
    forall n | n in job.due ensures DueIsSafe(u, mode, n) {
      DueSurvivesEnvironment(w, a, mode, n);
    }
    forall x | x in job.queue
      ensures Classified(x, rsd, job.active, job.due, job.unstamped, u.server.minted)
    {
      assert Classified(x, rsd, job.active, job.due, job.unstamped, w.server.minted);
    }
    FewerEndpointsStillDeregisterFirst(job.queue, Tracked(w), Tracked(u));
  }

  lemma EnvironmentKeepsPhase(w: World, a: EnvAction)
    requires Consistent(w.server) && PhaseOk(w)
    ensures PhaseOk(Step(w, Env(a)))
  {
    EnvironmentKeepsOwnership(w.server, a);
    match w.phase
    case Registering(rsd, snapshot, _) => SnapshotSurvivesEnvironment(w, a, snapshot, Some(rsd.desired));
    case Recording(rsd, snapshot, _) => SnapshotSurvivesEnvironment(w, a, snapshot, Some(rsd.desired));
    case Confirming(rsd, snapshot, _) => SnapshotSurvivesEnvironment(w, a, snapshot, Some(rsd.desired));
    case Deriving(_, _, snapshot) => SnapshotSurvivesEnvironment(w, a, snapshot, None);
    case Planning(_, _, snapshot, except) => SnapshotSurvivesEnvironment(w, a, snapshot, except);
    case Cleaning(rsd, mode, job) => EnvironmentKeepsJob(w, a, rsd, mode, job);
    case _ =>
  }

  lemma EnvironmentKeepsInvariant(w: World, a: EnvAction)
    requires Inv(w)
    ensures Inv(Step(w, Env(a)))
  {
    EnvironmentKeepsConsistency(w.server, a);
    EnvironmentKeepsOwnership(w.server, a);
    EnvironmentKeepsPhase(w, a);
  }

  // A job stays in order as time passes and the spec changes: it reads neither the spec nor,
  // except as a lower bound, the clock.
  lemma TimeKeepsJob(w: World, u: World, rsd: Rsd, mode: CleanupMode, job: Job)
    requires JobOk(w, rsd, mode, job)
    requires u == w.(rsd := u.rsd, clock := u.clock) && w.clock <= u.clock
    ensures JobOk(u, rsd, mode, job)
  {
    assert Tracked(u) == Tracked(w);
    assert forall n :: DueIsSafe(w, mode, n) ==> DueIsSafe(u, mode, n);
  }

  lemma TimeKeepsInvariant(w: World, u: World)
    requires Inv(w) && u == w.(rsd := u.rsd, clock := u.clock) && w.clock <= u.clock
    ensures Inv(u)
  {
    match w.phase
    case Cleaning(rsd, mode, job) => TimeKeepsJob(w, u, rsd, mode, job);
    case Registering(rsd, snapshot, _) => assert SnapshotHolds(u, snapshot, Some(rsd.desired));
    case Recording(rsd, snapshot, _) => assert SnapshotHolds(u, snapshot, Some(rsd.desired));
    case Confirming(rsd, snapshot, _) => assert SnapshotHolds(u, snapshot, Some(rsd.desired));
    case Deriving(_, _, snapshot) => assert SnapshotHolds(u, snapshot, None);
    case Planning(_, _, snapshot, except) => assert SnapshotHolds(u, snapshot, except);
    case _ =>
  }

  // The versions differ in their replicas at most.
  ghost predicate SameButReplicas(a: map<Name, Version>, b: map<Name, Version>) {
    && a.Keys == b.Keys
    && (forall n :: n in a ==> b[n] == a[n].(replicas := b[n].replicas))
  }

  lemma AutoscalingTouches(w: World, n: Name, replicas: nat)
    ensures
      var u := Autoscaled(w, n, replicas);
      u == w.(versions := u.versions) && SameButReplicas(w.versions, u.versions)
  {
  }

  // Nothing that makes a job safe depends on replicas.
  lemma AutoscalingKeepsJob(w: World, u: World, rsd: Rsd, mode: CleanupMode, job: Job)
    requires JobOk(w, rsd, mode, job) && u == w.(versions := u.versions) && SameButReplicas(w.versions, u.versions)
    ensures JobOk(u, rsd, mode, job)
  {
    assert Tracked(u) == Tracked(w);
    assert forall n :: DueIsSafe(w, mode, n) ==> DueIsSafe(u, mode, n);
  }

  lemma AutoscalingKeepsPhase(w: World, u: World)
    requires PhaseOk(w) && u == w.(versions := u.versions) && SameButReplicas(w.versions, u.versions)
    ensures PhaseOk(u)
  {
    match w.phase
    case Cleaning(rsd, mode, job) => AutoscalingKeepsJob(w, u, rsd, mode, job);
    case Registering(rsd, snapshot, _) => assert SnapshotHolds(u, snapshot, Some(rsd.desired));
    case Recording(rsd, snapshot, _) => assert SnapshotHolds(u, snapshot, Some(rsd.desired));
    case Confirming(rsd, snapshot, _) => assert SnapshotHolds(u, snapshot, Some(rsd.desired));
    case Deriving(_, _, snapshot) => assert SnapshotHolds(u, snapshot, None);
    case Planning(_, _, snapshot, except) => assert SnapshotHolds(u, snapshot, except);
    case _ =>
  }

  lemma AutoscalingKeepsInvariant(w: World, n: Name, replicas: nat)
    requires Inv(w)
    ensures Inv(Step(w, Autoscale(n, replicas)))
  {
    AutoscalingTouches(w, n, replicas);
    AutoscalingKeepsPhase(w, Autoscaled(w, n, replicas));
    hide Autoscaled, PhaseOk;
  }

  // --- The operator's own steps ---

  lemma BeginKeepsInvariant(w: World, clusterGone: bool)
    requires Inv(w)
    ensures Inv(Step(w, Begin(clusterGone)))
  {
    var n := w.rsd.desired;
    if w.phase.Idle? && w.rsd.deletedAt.None? {
      var writes := AdoptionWrites(w, w.rsd);
      if n in w.versions {
        assert w.versions[n].removeAt.Some? ==> writes[1] == ClearDeadline(n);
      } else {
        assert writes[0] == Create(n, w.rsd.replicas);
      }
    }
  }

  lemma AdoptionWriteFacts(w: World, rsd: Rsd, writes: seq<Write>)
    requires AdoptingOk(w, rsd, writes) && writes != []
    ensures
      var n := rsd.desired;
      var u := Apply(w, writes[0]);
      && u == w.(versions := u.versions, hpas := u.hpas, disturbed := u.disturbed)
      && u.disturbed == (if writes[0].ClearDeadline? then w.disturbed + {n} else w.disturbed)
      && u.versions.Keys <= w.versions.Keys + {n} && w.versions.Keys <= u.versions.Keys
      && (forall m :: m != n && m in w.versions ==> u.versions[m] == w.versions[m])
      && (n in w.versions ==>
            && u.versions[n].id == w.versions[n].id && u.versions[n].name == w.versions[n].name
            && (u.versions[n].removeAt == w.versions[n].removeAt || u.versions[n].removeAt.None?)
            && (writes[0].ClearDeadline? ==> u.versions[n].removeAt.None?))
      && (n !in w.versions && n in u.versions ==>
            u.versions[n].name == n && u.versions[n].id.None? && u.versions[n].removeAt.None?)
      && (n !in w.versions && writes[0].Create? ==> n in u.versions)
  {
    assert writes[0] in writes;
  }

  lemma AdoptionWriteKeepsVersions(w: World, rsd: Rsd, writes: seq<Write>)
    requires IdsAreOwn(w) && EndpointsRecorded(w) && DeadlinesStamped(w) && !w.phase.Recording?
    requires AdoptingOk(w, rsd, writes) && writes != []
    ensures
      var u := Apply(w, writes[0]);
      IdsAreOwn(u) && EndpointsRecorded(u) && DeadlinesStamped(u)
  {
    AdoptionWriteFacts(w, rsd, writes);
    hide Apply, AdoptingOk;
  }

  lemma AdoptionWriteKeepsAdopting(w: World, rsd: Rsd, writes: seq<Write>)
    requires AdoptingOk(w, rsd, writes) && writes != []
    ensures AdoptingOk(Apply(w, writes[0]), rsd, writes[1..])
  {
    var n := rsd.desired;
    AdoptionWriteFacts(w, rsd, writes);
    assert forall y :: y in writes[1..] ==> y in writes;
    assert forall y :: y in writes && y != writes[0] ==> y in writes[1..];
    if n !in w.versions {
      var r :| Create(n, r) in writes;
      assert writes[0].Create? || Create(n, r) in writes[1..];
    }
  }

  lemma AdoptingStep(w: World, c: Choice)
    requires w.phase.Adopting? && w.phase.writes != []
    ensures Step(w, Op(c)) == Apply(w, w.phase.writes[0]).(phase := Adopting(w.phase.rsd, w.phase.writes[1..]))
  {
  }

  lemma AdoptingKeepsInvariant(w: World, c: Choice)
    requires Inv(w) && w.phase.Adopting? && w.phase.writes != []
    ensures Inv(Step(w, Op(c)))
  {
    assert w.phase.writes[0] in w.phase.writes;
    AdoptionWriteKeepsVersions(w, w.phase.rsd, w.phase.writes);
    AdoptionWriteKeepsAdopting(w, w.phase.rsd, w.phase.writes);
    AdoptingStep(w, c);
    assert Apply(w, w.phase.writes[0]).server == w.server;
  }

  lemma AdoptedKeepsInvariant(w: World, c: Choice)
    requires Inv(w) && w.phase.Adopting? && w.phase.writes == []
    ensures Inv(Step(w, Op(c)))
  {
  }

  lemma SnapshotOfNow(w: World, mode: CleanupMode, except: Option<Name>)
    requires Consistent(w.server)
    ensures SnapshotHolds(w, UsageOf(w.server, mode), except)
  {
    forall n | Own(n) in w.server.endpoints && Some(n) != except
      ensures
        var id := w.server.endpoints[Own(n)];
        var snapshot := UsageOf(w.server, mode);
        id in snapshot && (!snapshot[id].latestForService && snapshot[id].pinned == 0 ==> !Needed(w.server, id))
    {
      ActiveMeansNeeded(w.server, w.server.endpoints[Own(n)], mode);
    }
  }

  lemma QueryStepFacts(w: World, rsd: Rsd, c: Choice)
    requires Adopted(w, rsd) && SnapshotHolds(w, UsageOf(w.server, Rollout), Some(rsd.desired))
    requires w.phase == Querying(rsd)
    ensures
      var u := QueryStep(w, rsd, c);
      u == w.(phase := u.phase) && !u.phase.Recording? && PhaseOk(u)
  {
    var u := QueryStep(w, rsd, c);
    assert SnapshotHolds(u, UsageOf(w.server, Rollout), Some(rsd.desired));
  }

  lemma QueryingKeepsInvariant(w: World, c: Choice)
    requires Inv(w) && (w.phase.Checking? || w.phase.Querying?)
    ensures Inv(Step(w, Op(c)))
  {
    if w.phase.Querying? {
      SnapshotOfNow(w, Rollout, Some(w.phase.rsd.desired));
      QueryStepFacts(w, w.phase.rsd, c);
      PhaseChangeKeepsRest(w, Step(w, Op(c)));
    }
  }

  // Everything but the phase's own part of the invariant ignores the phase.
  lemma PhaseChangeKeepsRest(w: World, u: World)
    requires u == w.(phase := u.phase) && !w.phase.Recording?
    requires Consistent(w.server) && EndpointsRecorded(w) && IdsAreOwn(w) && DeadlinesStamped(w)
    ensures Consistent(u.server) && EndpointsRecorded(u) && IdsAreOwn(u) && DeadlinesStamped(u)
  {
  }

  lemma QueryingForDeletionKeepsInvariant(w: World, c: Choice)
    requires Inv(w) && (w.phase.QueryingForDeletion? || w.phase.Deriving?)
    ensures Inv(Step(w, Op(c)))
  {
    if w.phase.QueryingForDeletion? {
      SnapshotOfNow(w, ModeFor(w.phase.rsd, w.clock), None);
    }
  }

  // Registering the current version changes nothing for any other.
  lemma RegisterKeepsSnapshot(w: World, u: World, cur: Name, force: bool, newId: DeploymentId, snapshot: UsageMap)
    requires Consistent(w.server) && (Own(cur) in w.server.endpoints || newId !in w.server.minted)
    requires SnapshotHolds(w, snapshot, Some(cur))
    requires u.server == Restate.Register(w.server, Own(cur), Services(w, cur), force, newId).0
    ensures SnapshotHolds(u, snapshot, Some(cur))
    ensures forall n :: n != cur && Own(n) in u.server.endpoints ==>
              Own(n) in w.server.endpoints && u.server.endpoints[Own(n)] == w.server.endpoints[Own(n)]
  {
    forall n | Own(n) in u.server.endpoints && n != cur
      ensures
        var id := u.server.endpoints[Own(n)];
        && Own(n) in w.server.endpoints && id == w.server.endpoints[Own(n)]
        && (!Needed(w.server, id) ==> !Needed(u.server, id))
    {
      if !Needed(w.server, w.server.endpoints[Own(n)]) {
        RegisterLeavesOthersQuiet(w.server, cur, Services(w, cur), force, newId, n);
      }
    }
  }

  lemma RegisteringStep(w: World, c: Choice)
    requires w.phase.Registering?
    requires Own(w.phase.rsd.desired) in w.server.endpoints || c.newId !in w.server.minted
    ensures
      var cur := w.phase.rsd.desired;
      var (server, id) := Restate.Register(w.server, Own(cur), Services(w, cur), w.phase.force, c.newId);
      Step(w, Op(c)) == w.(server := server, phase := Recording(w.phase.rsd, w.phase.snapshot, id))
  {
  }

  lemma RegisteringKeepsRecords(w: World, u: World, newId: DeploymentId)
    requires w.phase.Registering? && Consistent(w.server) && EndpointsRecorded(w) && IdsAreOwn(w)
    requires
      var cur := w.phase.rsd.desired;
      var (server, id) := Restate.Register(w.server, Own(cur), Services(w, cur), w.phase.force, newId);
      && (Own(cur) in w.server.endpoints || newId !in w.server.minted)
      && cur in w.versions
      && u == w.(server := server, phase := Recording(w.phase.rsd, w.phase.snapshot, id))
    ensures EndpointsRecorded(u) && IdsAreOwn(u)
    ensures u.phase.id in u.server.minted && u.server.minted[u.phase.id] == Own(w.phase.rsd.desired)
  {
    assert forall i :: i in w.server.minted ==> i in u.server.minted && u.server.minted[i] == w.server.minted[i];
  }

  lemma RegisteringKeepsInvariant(w: World, c: Choice)
    requires Inv(w) && w.phase.Registering?
    ensures Inv(Step(w, Op(c)))
  {
    var cur := w.phase.rsd.desired;
    if Own(cur) in w.server.endpoints || c.newId !in w.server.minted {
      var u := Step(w, Op(c));
      RegisteringStep(w, c);
      RegisterKeepsConsistency(w.server, Own(cur), Services(w, cur), w.phase.force, c.newId);
      RegisterKeepsSnapshot(w, u, cur, w.phase.force, c.newId, w.phase.snapshot);
      RegisteringKeepsRecords(w, u, c.newId);
    }
  }

  lemma RecordingKeepsInvariant(w: World, c: Choice)
    requires Inv(w) && w.phase.Recording?
    ensures Inv(Step(w, Op(c)))
  {
    var rsd := w.phase.rsd;
    var u := Step(w, Op(c));
    assert u.versions == w.versions[rsd.desired := w.versions[rsd.desired].(id := Some(w.phase.id))];
  }

  lemma ConfirmingKeepsInvariant(w: World, c: Choice)
    requires Inv(w) && w.phase.Confirming?
    ensures Inv(Step(w, Op(c)))
  {
    var rsd, snapshot, id := w.phase.rsd, w.phase.snapshot, w.phase.id;
    var u := Step(w, Op(c));
    if u.phase.Planning? {
      // the confirmed id is the current version's, so no other entry changes
      assert SnapshotHolds(u, snapshot[id := DeploymentUsage(true, 0, 0)], Some(rsd.desired));
    }
  }
}
