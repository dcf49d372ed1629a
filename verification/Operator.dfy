// The reconciler as it runs: cleanup and the passes around it issue one API call at a time,
// while the rest of the world moves between calls and any call may fail. Every method extends
// one run of the lifecycle, so what holds over runs holds wherever these methods stop.
module Operator {
  import opened Base
  import opened Usage
  import opened Policy
  import opened Restate
  import opened Registration
  import opened Cleanup
  import opened Outcome
  import opened CleanupReport
  import opened Lifecycle
  import opened LifecycleInvariant
  import opened LifecycleCleaning
  import opened LifecycleSafety
  import opened LifecyclePass
  import opened LifecycleDeletion
  import opened Deletion

  // --- Whole passes ---

  datatype PassResult =
    | Failed
    // the fast path: nothing to do
    | UpToDate
    // someone else serves the services; nothing was written to Restate
    | ForeignDeployment
    // registered, but Restate routes some service elsewhere
    | NotLatest
    // the pods are not ready; old versions were cleaned up to make room, or that failed
    | NotReady(cleanedUp: bool)
    | CleanedUp(outcome: CleanupOutcome)

  datatype DeletionResult =
    | DeletionFailed
    | ClusterGone
    | ReleasedAll(abandoned: seq<BlockingVersion>)
    | InUse(blocking: seq<BlockingVersion>, overdue: bool, requeueAfter: nat)
    | Draining(nextRemoval: Time, requeueAfter: nat)

  // What one pass of cleanup saw and how it went, for stating what it did.
  datatype Report = Report(
    p: Pass, view: View, order: seq<Name>, failed: set<Name>, until: Time, outcome: CleanupOutcome)

  // How a rollout pass stands once it has seen to the current version.
  datatype Preparation =
    | Ends(result: PassResult)
    | CleansUp(snapshot: UsageMap, ready: bool)

  // The pass goes on: nothing restarted it and it did not stop.
  ghost predicate Continues(a: seq<Label>, b: seq<Label>) {
    && a <= b
    && (forall k :: |a| <= k < |b| ==> !b[k].Begin? && !b[k].Crash?)
  }

  lemma ContinuesOn(a: seq<Label>, b: seq<Label>, c: seq<Label>)
    requires Continues(a, b) && Continues(b, c)
    ensures Continues(a, c)
  {
  }

  lemma ContinuesItself(a: seq<Label>)
    ensures Continues(a, a)
  {
  }

  lemma ContinuesExtends(a: seq<Label>, b: seq<Label>)
    requires Continues(a, b)
    ensures a <= b
  {
  }

  // The pass was stopped, by a failed call or a restart, and nothing has begun since.
  ghost predicate Stops(a: seq<Label>, b: seq<Label>) {
    && a < b && b[|b| - 1].Crash?
    && (forall k :: |a| <= k < |b| ==> !b[k].Begin?)
  }

  lemma StopsOn(a: seq<Label>, b: seq<Label>, c: seq<Label>)
    requires Continues(a, b) && Stops(b, c)
    ensures Stops(a, c)
  {
  }

  lemma StopsExtends(a: seq<Label>, b: seq<Label>)
    requires Stops(a, b)
    ensures a <= b
  {
  }

  lemma StopsNow(a: seq<Label>)
    ensures Stops(a, a + [Label.Crash])
  {
  }

  lemma OneAndTheOther(x: Write, y: Write, rest: seq<Write>)
    ensures [x, y] + rest == [x] + ([y] + rest)
  {
  }

  ghost function Advanced(phase: Phase): Phase {
    match phase
    case Adopting(rsd, writes) => if writes == [] then phase else Adopting(rsd, writes[1..])
    case Cleaning(rsd, mode, job) =>
      if job.queue == [] then phase else Cleaning(rsd, mode, job.(queue := job.queue[1..]))
    case _ => phase
  }

  lemma NextWriteStep(w: World, x: Write)
    requires Expected(w.phase) != [] && Expected(w.phase)[0] == x
    ensures Step(w, Op(Anything)) == Apply(w, x).(phase := Advanced(w.phase))
    ensures
      var effect := Effect(View(w.versions, map[], w.hpas), x, w.clock);
      && effect.usage == map[]
      && Apply(w, x) == w.(
           versions := effect.versions,
           hpas := effect.hpas,
           server := if x.Deregister? then Restate.Deregister(w.server, x.id) else w.server,
           stamps := Apply(w, x).stamps,
           disturbed := Apply(w, x).disturbed)
  {
    if w.phase.Cleaning? {
      CleaningStep(w, Anything);
      var rest := w.(phase := Advanced(w.phase));
      ApplyIgnoresPhase(w, rest, x);
    }
  }

  lemma ApplyIgnoresPhase(w: World, u: World, x: Write)
    requires u == w.(phase := u.phase)
    ensures Apply(u, x) == Apply(w, x).(phase := u.phase)
  {
  }

  lemma AdoptionIgnoresPhase(w: World)
    ensures forall phase, rsd :: AdoptionWrites(w.(phase := phase), rsd) == AdoptionWrites(w, rsd)
  {
  }

  lemma DeletionMoves(w: World)
    ensures w.phase.QueryingForDeletion? ==>
              var mode := ModeFor(w.phase.rsd, w.clock);
              Step(w, Op(Anything)) == w.(phase := Deriving(w.phase.rsd, mode, UsageOf(w.server, mode)))
    ensures w.phase.Deriving? ==>
              Step(w, Op(Anything))
              == w.(phase := Planning(w.phase.rsd, ModeFor(w.phase.rsd, w.clock), w.phase.snapshot, None))
  {
  }

  lemma QueryMoves(w: World, c: Choice)
    requires w.phase.Querying? && ListsOwned(c.owned, w.versions)
    ensures
      var rsd, snapshot := w.phase.rsd, UsageOf(w.server, Rollout);
      var action := PlanRegistration(Recorded(w, rsd.desired), snapshot, c.owned);
      Step(w, Op(c)) == w.(phase :=
        if action.Conflict? then Idle
        else if action.AlreadyLatest? || !c.ready then Planning(rsd, Rollout, snapshot, Some(rsd.desired))
        else Registering(rsd, snapshot, action.Overwrites()))
  {
    hide UsageOf, PlanRegistration, ListsOwned;
  }

  lemma RegisteredWell(w: World, force: bool, newId: DeploymentId)
    requires Inv(w) && w.phase.Registering?
    requires Own(w.phase.rsd.desired) in w.server.endpoints || newId !in w.server.minted
    ensures
      var n := w.phase.rsd.desired;
      var (t, id) := Restate.Register(w.server, Own(n), Services(w, n), force, newId);
      && Own(n) in t.endpoints && t.endpoints[Own(n)] == id
      && (force ==> forall v :: v in Services(w, n) ==> v in t.routes && t.routes[v] == id)
  {
  }

  lemma RecordMoves(w: World, n: Name, id: DeploymentId)
    requires w.phase.Recording? && w.phase.rsd.desired == n && w.phase.id == id && n in w.versions
    ensures Step(w, Op(Anything)) == w.(
      versions := w.versions[n := w.versions[n].(id := Some(id))],
      phase := Confirming(w.phase.rsd, w.phase.snapshot, id),
      lost := w.lost - {n})
  {
  }

  // The current version, once a pass has adopted it.
  ghost predicate IsCurrent(spec: Rsd, versions: map<Name, Version>, hpas: set<Name>) {
    && spec.desired in versions && spec.desired !in hpas
    && versions[spec.desired].replicas == spec.replicas && versions[spec.desired].removeAt.None?
  }

  // A pass has adopted the current version, and left the others as it found them.
  ghost predicate Readied(
      spec: Rsd, found: map<Name, Version>, scaled: set<Name>, versions: map<Name, Version>, hpas: set<Name>) {
    && IsCurrent(spec, versions, hpas)
    && versions == found[spec.desired := versions[spec.desired]] && hpas == scaled - {spec.desired}
  }

  lemma ReadiedIsCurrent(
      spec: Rsd, found: map<Name, Version>, scaled: set<Name>, versions: map<Name, Version>, hpas: set<Name>)
    requires Readied(spec, found, scaled, versions, hpas)
    ensures IsCurrent(spec, versions, hpas)
  {
  }

  lemma ReadiedOn(
      spec: Rsd, va: map<Name, Version>, ha: set<Name>, vb: map<Name, Version>, hb: set<Name>,
      vc: map<Name, Version>, hc: set<Name>)
    requires Readied(spec, va, ha, vb, hb) && Readied(spec, vb, hb, vc, hc)
    ensures Readied(spec, va, ha, vc, hc)
  {
  }

  // --- The cleanup loop ---

  // What the loop has counted so far.
  datatype Tally = Tally(
    blocking: seq<BlockingVersion>,
    abandoned: seq<BlockingVersion>,
    historicCount: nat,
    next: Option<Time>)

  ghost predicate SeesCandidates(view: View, order: seq<Name>) {
    Distinct(order) && forall n :: n in order ==> n in view.versions && view.versions[n].name == n
  }

  lemma IsCandidate(view: View, order: seq<Name>, i: nat)
    requires SeesCandidates(view, order) && i < |order|
    ensures order[i] in view.versions && view.versions[order[i]].name == order[i]
  {
  }

  ghost predicate Counted(p: Pass, view: View, order: seq<Name>, i: nat, tally: Tally)
    requires i <= |order|
  {
    && tally.blocking == BlockingAmong(p, view, order[..i])
    && tally.abandoned == AbandonedAmong(p, view, order, i)
    && tally.historicCount == KeptBefore(p, view, order, i)
  }

  // The first `i` versions are dealt with, in Kubernetes and in Restate.
  ghost predicate Stands(
      p: Pass, view: View, order: seq<Name>, i: nat, next: Option<Time>, failed: set<Name>, since: Time, w: World)
    requires i <= |order|
  {
    && since <= w.clock
    && Progress(p, view, order, i, w.versions, w.hpas, failed, since, w.clock)
    && IsSoonest(next, p, view, order[..i], w.versions)
    && DeregisteredAmong(p, view, order, i, w.server)
  }

  lemma SeesOwned(view: View, order: seq<Name>, except: Option<Name>)
    requires IsNewestFirst(order, view.versions, except)
    requires forall n :: n in view.versions ==> view.versions[n].name == n
    ensures SeesCandidates(view, order)
  {
  }

  lemma SettledWhenReported(
      p: Pass, view: View, order: seq<Name>, outcome: CleanupOutcome, versions: map<Name, Version>, now: Time)
    requires SeesCandidates(view, order) && Reports(outcome, p, view, order, versions, now)
    ensures JobFor(p, view, order).settled <==> p.mode.IsDeleting() && outcome.blocking == [] && outcome.nextRemoval.None?
  {
    ReleaseMeansSettled(p, view, order, outcome, versions, now);
    hide JobFor, BlockingAmong;
  }

  lemma ActiveCounts(p: Pass, view: View, order: seq<Name>, i: nat, was: Tally)
    requires i < |order| && order[i] in view.versions && view.versions[order[i]].name == order[i]
    requires Judge(p, view.usage, view.versions[order[i]]).Blocked? && Counted(p, view, order, i, was)
    ensures
      var v := view.versions[order[i]];
      Counted(p, view, order, i + 1, was.(
        blocking := was.blocking + [BlockingVersion(v.name, v.id, Judge(p, view.usage, v).usage)]))
  {
    ActiveTurn(p, view, order, i);
  }

  lemma DueCounts(p: Pass, view: View, order: seq<Name>, i: nat, was: Tally)
    requires i < |order| && order[i] in view.versions && view.versions[order[i]].name == order[i]
    requires Judge(p, view.usage, view.versions[order[i]]).Due? && Counted(p, view, order, i, was)
    ensures
      var v := view.versions[order[i]];
      var deployment := UsageFor(view.usage, v);
      && RetainForRollback(p.mode, was.historicCount, p.rsd.revisionHistoryLimit) == Kept(p, view, order, i)
      && Counted(p, view, order, i + 1,
           if Kept(p, view, order, i) then was.(historicCount := was.historicCount + 1)
           else if deployment.Some? && deployment.value.InFlight() > 0
           then was.(abandoned := was.abandoned + [BlockingVersion(v.name, v.id, deployment.value)])
           else was)
  {
    DueTurn(p, view, order, i);
    DueTurnAbandons(p, view, order, i);
  }

  lemma OutstandingCounts(p: Pass, view: View, order: seq<Name>, i: nat, was: Tally)
    requires i < |order| && order[i] in view.versions && view.versions[order[i]].name == order[i]
    requires Outstanding(p, view.usage, view.versions[order[i]]) && Counted(p, view, order, i, was)
    ensures forall next :: Counted(p, view, order, i + 1, was.(next := next))
  {
    WaitingTurn(p, view, order, i);
  }

  lemma RecordedIsReadied(spec: Rsd, versions: map<Name, Version>, hpas: set<Name>, id: DeploymentId)
    requires IsCurrent(spec, versions, hpas)
    ensures
      Readied(spec, versions, hpas, versions[spec.desired := versions[spec.desired].(id := Some(id))], hpas)
  {
  }

  // What the plan says about the recorded id.
  lemma PlanTells(w: World, spec: Rsd, owned: seq<DeploymentId>)
    requires Inv(w)
    ensures
      var recorded := Recorded(w, spec.desired);
      var action := PlanRegistration(recorded, UsageOf(w.server, Rollout), owned);
      && (action.AlreadyLatest? ==> recorded.Some? && IsLatest(w.server, recorded.value))
      && (!action.AlreadyLatest? && recorded.Some? ==> !IsLatest(w.server, recorded.value))
  {
  }

  // What a pass found stays found as it goes on or stops.
  lemma FoundStays(w0: World, a: seq<Label>, b: seq<Label>, k: nat, spec: Rsd)
    requires a <= b
    ensures RoutedAt(w0, a, k, spec) ==> RoutedAt(w0, b, k, spec)
    ensures UnreadyAt(w0, a, k, spec) ==> UnreadyAt(w0, b, k, spec)
  {
    if k < |a| {
      assert a[..k] == b[..k] && a[..k + 1] == b[..k + 1] && a[k] == b[k];
    }
    hide Exec;
  }

  class Reconciler {
    var rsd: Rsd
    const discovery: map<Name, set<Service>>
    var server: Server
    var versions: map<Name, Version>
    var hpas: set<Name>
    var clock: Time
    ghost var phase: Phase
    ghost var stamps: map<Name, Stamp>
    ghost var disturbed: set<Name>
    ghost var lost: set<Name>
    ghost const origin: World
    ghost var run: seq<Label>

    ghost function State(): World
      reads this
    {
      World(rsd, discovery, server, versions, hpas, clock, phase, stamps, disturbed, lost)
    }

    // The object is where its run of the lifecycle leads.
    ghost predicate Valid()
      reads this
    {
      Initial(origin) && State() == Exec(origin, run)
    }

    constructor (rsd: Rsd, discovery: map<Name, set<Service>>, server: Server, clock: Time)
      requires Consistent(server) && forall n :: Own(n) !in server.endpoints
      ensures Valid() && run == [] && phase == Idle
      ensures this.rsd == rsd && this.server == server && this.clock == clock
    {
      this.rsd, this.discovery, this.server, this.clock := rsd, discovery, server, clock;
      versions, hpas, phase, stamps, disturbed, lost := map[], {}, Idle, map[], {}, {};
      origin := World(rsd, discovery, server, map[], {}, clock, Idle, map[], {}, {});
      run := [];
    }

    // --- The rest of the world ---

    // Whatever happens between two calls: invocations move, others register, time passes and
    // the spec is edited.
    method Pause()
      requires Valid()
      modifies `rsd, `server, `clock, `run
      ensures Valid() && Continues(old(run), run) && old(clock) <= clock
    {
      var steps: nat :| 0 <= steps;
      for _ := 0 to steps
        invariant Valid() && Continues(old(run), run) && old(clock) <= clock
      {
        if * {
          var action: EnvAction := *;
          ExecSnoc(origin, run, Env(action));
          server, run := Environment(server, action), run + [Env(action)];
        } else if * {
          var elapsed: nat := *;
          ExecSnoc(origin, run, Tick(elapsed));
          clock, run := clock + elapsed, run + [Tick(elapsed)];
        } else {
          var edited: Rsd := *;
          ExecSnoc(origin, run, Edit(edited));
          rsd := Edited(rsd, edited);
          run := run + [Edit(edited)];
        }
      }
    }

    // An autoscaler resizes its version.
    method Autoscale(n: Name, replicas: nat)
      requires Valid()
      modifies `versions, `run
      ensures Valid() && Continues(old(run), run)
      ensures versions ==
        if n in hpas && n in old(versions) && replicas > 0
        then old(versions)[n := old(versions)[n].(replicas := replicas)] else old(versions)
    {
      ghost var w := State();
      ExecSnoc(origin, run, Label.Autoscale(n, replicas));
      if n in hpas && n in versions && replicas > 0 {
        versions := versions[n := versions[n].(replicas := replicas)];
      }
      run := run + [Label.Autoscale(n, replicas)];
      assert State() == Step(w, Label.Autoscale(n, replicas));
    }

    // A failed call, a lost response or a restart ends the pass.
    ghost method Stop()
      requires Valid() && !phase.Released?
      modifies `phase, `lost, `run
      ensures Valid() && phase == Idle && run == old(run) + [Crash] && Stops(old(run), run)
      ensures LastPhase() == old(phase)
    {
      hide Exec, Initial, Stops;
      assert (run + [Crash])[..|run|] == run;
      ExecSnoc(origin, run, Crash);
      StopsNow(run);
      lost := if LosesRegistration(State()) then lost + {phase.rsd.desired} else lost;
      phase := Idle;
      run := run + [Crash];
    }

    // --- Writes ---

    // The phase the latest step was taken in.
    ghost function LastPhase(): Phase
      reads this
      requires run != []
    {
      Exec(origin, run[..|run| - 1]).phase
    }

    // The latest step was taken before the pass came to its cleanup.
    ghost predicate EndsEarlier()
      reads this
    {
      run != [] && Rank(LastPhase()).Some?
    }

    // One write that must succeed for the pass to go on.
    method Issue(x: Write) returns (ok: bool)
      requires Valid() && Expected(phase) != [] && Expected(phase)[0] == x && !x.EnsureHpa?
      modifies this
      ensures Valid() && old(clock) <= clock
      ensures !ok ==> phase == Idle && Stops(old(run), run) && (old(phase).Adopting? ==> EndsEarlier())
      ensures ok ==>
        && Continues(old(run), run)
        && phase == Advanced(old(phase))
        && View(versions, map[], hpas) == Effect(View(old(versions), map[], old(hpas)), x, clock).(usage := map[])
        && (x.Deregister? ==> x.id !in server.deployments)
    {
      Pause();
      ghost var paused := run;
      if * {
        Stop();
        StopsOn(old(run), paused, run);
        return false;
      }
      IssueNow(x);
      ContinuesOn(old(run), paused, run);
      ghost var issued := run;
      if * {
        Stop();
        StopsOn(old(run), issued, run);
        return false;
      }
      return true;
    }

    method IssueNow(x: Write)
      requires Valid() && Expected(phase) != [] && Expected(phase)[0] == x && !x.EnsureHpa?
      modifies this
      ensures Valid() && clock == old(clock) && Continues(old(run), run)
      ensures phase == Advanced(old(phase))
      ensures View(versions, map[], hpas) == Effect(View(old(versions), map[], old(hpas)), x, clock).(usage := map[])
      ensures x.Deregister? ==> x.id !in server.deployments
    {
      NextWriteStep(State(), x);
      assert x.Deregister? ==> x.id !in Restate.Deregister(server, x.id).deployments;
      ExecSnoc(origin, run, Op(Anything));
      ghost var after := Apply(State(), x);
      var effect := Effect(View(versions, map[], hpas), x, clock);
      hide Apply, Effect, Step, Advanced, Expected, Initial, Restate.Deregister;
      versions, hpas := effect.versions, effect.hpas;
      if x.Deregister? {
        server := Restate.Deregister(server, x.id);
      }
      stamps, disturbed := after.stamps, after.disturbed;
      phase := Advanced(phase);
      run := run + [Op(Anything)];
    }

    // Applying an autoscaler: a failure is reported and the pass goes on.
    method ApplyHpa(n: Name) returns (applied: bool)
      requires Valid() && phase.Cleaning? && Expected(phase) != [] && Expected(phase)[0] == EnsureHpa(n)
      modifies this
      ensures Valid() && old(clock) <= clock && Continues(old(run), run)
      ensures phase == Advanced(old(phase))
      ensures versions == old(versions) && hpas == if applied then old(hpas) + {n} else old(hpas)
    {
      Pause();
      applied := *;
      ghost var c := Anything.(hpaApplied := applied);
      ExecSnoc(origin, run, Op(c));
      if applied {
        hpas := hpas + {n};
      }
      phase := Advanced(phase);
      run := run + [Op(c)];
    }

    // --- Cleanup ---

    ghost predicate AtQueue(p: Pass, job: Job, queue: seq<Write>)
      reads `phase
    {
      phase == Cleaning(p.rsd, p.mode, job.(queue := queue))
    }

    // The next queued write, in terms of the queue alone.
    method Send(p: Pass, x: Write, ghost job: Job, ghost rest: seq<Write>) returns (ok: bool)
      requires Valid() && AtQueue(p, job, [x] + rest) && !x.EnsureHpa?
      modifies this
      ensures Valid() && old(clock) <= clock
      ensures !ok ==> phase == Idle && Stops(old(run), run)
      ensures ok ==>
        && Continues(old(run), run) && AtQueue(p, job, rest)
        && View(versions, map[], hpas) == Effect(View(old(versions), map[], old(hpas)), x, clock).(usage := map[])
        && (x.Deregister? ==> x.id !in server.deployments)
    {
      assert ([x] + rest)[1..] == rest;
      ok := Issue(x);
    }

    method RemoveHpa(p: Pass, n: Name, ghost job: Job, ghost rest: seq<Write>) returns (ok: bool)
      requires Valid() && AtQueue(p, job, [DeleteHpa(n)] + rest)
      modifies this
      ensures Valid() && old(clock) <= clock
      ensures !ok ==> phase == Idle && Stops(old(run), run)
      ensures ok ==>
        Continues(old(run), run) && AtQueue(p, job, rest) && versions == old(versions) && hpas == old(hpas) - {n}
    {
      ok := Send(p, DeleteHpa(n), job, rest);
    }

    method RestoreReplicas(p: Pass, n: Name, ghost job: Job, ghost rest: seq<Write>) returns (ok: bool)
      requires Valid() && n in versions && AtQueue(p, job, [RestoreScale(n, p.rsd.replicas)] + rest)
      modifies this
      ensures Valid() && old(clock) <= clock
      ensures !ok ==> phase == Idle && Stops(old(run), run)
      ensures ok ==>
        && Continues(old(run), run) && AtQueue(p, job, rest)
        && versions == old(versions)[n := old(versions)[n].(replicas := p.rsd.replicas)] && hpas == old(hpas)
    {
      hide Valid, Continues, AtQueue;
      ok := Send(p, RestoreScale(n, p.rsd.replicas), job, rest);
    }

    // Autoscaling was switched off: the operator's autoscaler goes and full replicas return.
    method RemoveAndRestoreHpa(p: Pass, n: Name, ghost job: Job, ghost rest: seq<Write>) returns (ok: bool)
      requires Valid() && n in versions
      requires AtQueue(p, job, [DeleteHpa(n), RestoreScale(n, p.rsd.replicas)] + rest)
      modifies this
      ensures Valid() && old(clock) <= clock
      ensures !ok ==> phase == Idle && Stops(old(run), run)
      ensures ok ==>
        && Continues(old(run), run) && AtQueue(p, job, rest)
        && versions == old(versions)[n := old(versions)[n].(replicas := p.rsd.replicas)] && hpas == old(hpas) - {n}
    {
      hide *;
      ghost var restore := RestoreScale(n, p.rsd.replicas);
      OneAndTheOther(DeleteHpa(n), restore, rest);
      ok := RemoveHpa(p, n, job, [restore] + rest);
      if ok {
        ghost var between := run;
        ok := RestoreReplicas(p, n, job, rest);
        if ok { ContinuesOn(old(run), between, run); } else { StopsOn(old(run), between, run); }
      }
    }

    // A version that is still active has an autoscaler exactly when one is configured.
    method FollowAutoscaling(p: Pass, view: View, n: Name, ghost job: Job, ghost rest: seq<Write>)
      returns (ok: bool, ghost hpaFailed: bool)
      requires Valid() && n in versions && AtQueue(p, job, ActiveHpaWrites(p, view, n) + rest)
      modifies this
      ensures Valid() && old(clock) <= clock
      ensures !ok ==> phase == Idle && Stops(old(run), run)
      ensures ok ==>
        && Continues(old(run), run) && AtQueue(p, job, rest)
        && versions == old(versions)[n := old(versions)[n].(
             replicas := if |ActiveHpaWrites(p, view, n)| == 2 then p.rsd.replicas else old(versions)[n].replicas)]
        && hpas ==
           if ActiveHpaWrites(p, view, n) == [] || hpaFailed then old(hpas)
           else if |ActiveHpaWrites(p, view, n)| == 1 then old(hpas) + {n} else old(hpas) - {n}
    {
      ok, hpaFailed := true, false;
      assert [] + rest == rest;
      if p.flavour.ReplicaSets? {
        match PlanActiveVersionHpa(p.rsd.autoscaling, p.mode.IsDeleting()) {
          case Ensure =>
            assert ([EnsureHpa(n)] + rest)[1..] == rest;
            var applied := ApplyHpa(n);
            hpaFailed := !applied;
          case RemoveAndRestore =>
            if n in view.hpas {
              ok := RemoveAndRestoreHpa(p, n, job, rest);
            }
          case Skip =>
        }
      }
    }

    // A version Restate still needs: its autoscaler follows the spec, and it sheds its deadline.
    method KeepActive(p: Pass, view: View, v: Version, ghost job: Job, ghost rest: seq<Write>)
      returns (ok: bool, ghost hpaFailed: bool)
      requires Valid() && Lookup(versions, v.name) == Some(v)
      requires AtQueue(p, job,
        ActiveHpaWrites(p, view, v.name) + (if v.removeAt.Some? then [ClearDeadline(v.name)] else []) + rest)
      modifies this
      ensures Valid() && old(clock) <= clock
      ensures !ok ==> phase == Idle && Stops(old(run), run)
      ensures ok ==>
        && Continues(old(run), run) && AtQueue(p, job, rest)
        && versions == old(versions)[v.name := v.(
             removeAt := None,
             replicas := if |ActiveHpaWrites(p, view, v.name)| == 2 then p.rsd.replicas else v.replicas)]
        && hpas ==
           if ActiveHpaWrites(p, view, v.name) == [] || hpaFailed then old(hpas)
           else if |ActiveHpaWrites(p, view, v.name)| == 1 then old(hpas) + {v.name} else old(hpas) - {v.name}
    {
      hide ActiveHpaWrites, Valid, AtQueue;
      ghost var clear := if v.removeAt.Some? then [ClearDeadline(v.name)] else [];
      assert ActiveHpaWrites(p, view, v.name) + clear + rest == ActiveHpaWrites(p, view, v.name) + (clear + rest);
      ok, hpaFailed := FollowAutoscaling(p, view, v.name, job, clear + rest);
      if ok {
        if v.removeAt.Some? {
          ok := Send(p, ClearDeadline(v.name), job, rest);
        } else {
          assert clear + rest == rest;
        }
      }
    }

    method ScaleToNothing(p: Pass, v: Version, ghost job: Job, ghost rest: seq<Write>) returns (ok: bool)
      requires Valid() && Lookup(versions, v.name) == Some(v)
      requires AtQueue(p, job, (if v.replicas > 0 then [ScaleToZero(v.name)] else []) + rest)
      modifies this
      ensures Valid() && old(clock) <= clock
      ensures !ok ==> phase == Idle && Stops(old(run), run)
      ensures ok ==>
        && Continues(old(run), run) && AtQueue(p, job, rest)
        && versions == old(versions)[v.name := v.(replicas := 0)] && hpas == old(hpas)
    {
      ok := true;
      if v.replicas > 0 {
        ok := Send(p, ScaleToZero(v.name), job, rest);
      } else {
        assert [] + rest == rest;
      }
    }

    // A version due for removal: its autoscaler goes first, then its replicas.
    method ScaleDown(p: Pass, view: View, v: Version, ghost job: Job, ghost rest: seq<Write>) returns (ok: bool)
      requires Valid() && Lookup(versions, v.name) == Some(v)
      requires v.name in view.hpas <==> v.name in hpas
      requires AtQueue(p, job, ScaleDownWrites(p, view, v) + rest)
      modifies this
      ensures Valid() && old(clock) <= clock
      ensures !ok ==> phase == Idle && Stops(old(run), run)
      ensures ok ==>
        && Continues(old(run), run) && AtQueue(p, job, rest)
        && (if p.flavour.ReplicaSets?
            then versions == old(versions)[v.name := v.(replicas := 0)] && hpas == old(hpas) - {v.name}
            else versions == old(versions) && hpas == old(hpas))
    {
      hide *;
      ok := true;
      ghost var scale := if v.replicas > 0 then [ScaleToZero(v.name)] else [];
      ScaleDownParts(p, view, v, rest);
      ContinuesItself(run);
      if p.flavour.ReplicaSets? {
        if v.name in view.hpas {
          ok := RemoveHpa(p, v.name, job, scale + rest);
          if !ok { return; }
        }
        ghost var between := run;
        ok := ScaleToNothing(p, v, job, rest);
        if ok { ContinuesOn(old(run), between, run); } else { StopsOn(old(run), between, run); }
      }
    }

    method SendDeregister(p: Pass, n: Name, id: DeploymentId, ghost job: Job, ghost rest: seq<Write>) returns (ok: bool)
      requires Valid() && AtQueue(p, job, [Cleanup.Deregister(n, id)] + rest)
      requires n in versions && versions[n].id == Some(id)
      modifies this
      ensures Valid() && old(clock) <= clock
      ensures !ok ==> phase == Idle && Stops(old(run), run)
      ensures ok ==>
        && Continues(old(run), run) && AtQueue(p, job, rest) && versions == old(versions) && hpas == old(hpas)
        && Removed(server, id)
    {
      ok := Send(p, Cleanup.Deregister(n, id), job, rest);
      Named();
    }

    method SendDelete(p: Pass, n: Name, ghost job: Job, ghost rest: seq<Write>) returns (ok: bool)
      requires Valid() && AtQueue(p, job, [DeleteVersion(n)] + rest)
      modifies this
      ensures Valid() && old(clock) <= clock
      ensures !ok ==> phase == Idle && Stops(old(run), run)
      ensures ok ==>
        Continues(old(run), run) && AtQueue(p, job, rest) && versions == old(versions) - {n} && hpas == old(hpas)
    {
      ok := Send(p, DeleteVersion(n), job, rest);
    }

    lemma StaysRemoved(before: seq<Label>, w: World, id: DeploymentId)
      requires Valid() && before <= run && w == Exec(origin, before)
      ensures Removed(w.server, id) ==> Removed(server, id)
    {
      if Removed(w.server, id) {
        RemovedForGood(origin, before, run, id);
      }
    }

    lemma StaysDeregistered(before: seq<Label>, w: World, p: Pass, view: View, order: seq<Name>, i: nat)
      requires Valid() && before <= run && w == Exec(origin, before)
      requires i <= |order| && DeregisteredAmong(p, view, order, i, w.server)
      ensures DeregisteredAmong(p, view, order, i, server)
    {
      hide Removed, Exec, Initial;
      forall id ensures Removed(w.server, id) ==> Removed(server, id) {
        StaysRemoved(before, w, id);
      }
    }

    // The loop's next turn is over, as far as Restate is concerned.
    lemma TurnDeregisters(before: seq<Label>, w: World, p: Pass, view: View, order: seq<Name>, i: nat)
      requires Valid() && before <= run && w == Exec(origin, before)
      requires i < |order| && DeregisteredAmong(p, view, order, i, w.server)
      requires Deregisters(p, view, order, i) ==> Removed(server, view.versions[order[i]].id.value)
      ensures DeregisteredAmong(p, view, order, i + 1, server)
    {
      hide Removed, Deregisters, DeregisteredAmong, Exec, Initial;
      forall id ensures Removed(w.server, id) ==> Removed(server, id) {
        StaysRemoved(before, w, id);
      }
      DeregisteredStep(p, view, order, i, w.server, server);
    }

    lemma IsItsRun()
      requires Valid()
      ensures State() == Exec(origin, run) && State().server == server && State().clock == clock
      ensures State().phase == phase && State().rsd == rsd
    {
    }

    // Deregistered before it is deleted, so that a registered deployment always has its version.
    method TearDown(p: Pass, view: View, v: Version, ghost job: Job, ghost rest: seq<Write>) returns (ok: bool)
      requires Valid() && v.name in versions && versions[v.name].id == v.id
      requires AtQueue(p, job, TearDownWrites(view, v) + rest)
      modifies this
      ensures Valid() && old(clock) <= clock
      ensures !ok ==> phase == Idle && Stops(old(run), run)
      ensures ok ==>
        && Continues(old(run), run) && AtQueue(p, job, rest)
        && versions == old(versions) - {v.name} && hpas == old(hpas)
        && (UsageFor(view.usage, v).Some? ==> v.id.Some? && Removed(server, v.id.value))
    {
      TearDownParts(view, v, rest);
      var registered := UsageFor(view.usage, v).Some?;
      assert registered ==> v.id.Some?;
      hide *;
      ContinuesItself(run);
      if registered {
        ok := SendDeregister(p, v.name, v.id.value, job, [DeleteVersion(v.name)] + rest);
        if !ok { return; }
      }
      ghost var between, w := run, State();
      IsItsRun();
      ok := SendDelete(p, v.name, job, rest);
      if ok {
        ContinuesOn(old(run), between, run);
        if registered {
          ContinuesExtends(between, run);
          StaysRemoved(between, w, v.id.value);
        }
      } else {
        StopsOn(old(run), between, run);
      }
    }

    // A version due for removal stays, scaled to zero, while the revision history has room.
    method Retire(p: Pass, view: View, v: Version, historicCount: nat, ghost job: Job, ghost rest: seq<Write>)
      returns (ok: bool, kept: bool)
      requires Valid() && Lookup(versions, v.name) == Some(v)
      requires v.name in view.hpas <==> v.name in hpas
      requires AtQueue(p, job,
        ScaleDownWrites(p, view, v)
        + ((if RetainForRollback(p.mode, historicCount, p.rsd.revisionHistoryLimit) then [] else TearDownWrites(view, v))
           + rest))
      modifies this
      ensures Valid() && old(clock) <= clock
      ensures !ok ==> phase == Idle && Stops(old(run), run)
      ensures kept == RetainForRollback(p.mode, historicCount, p.rsd.revisionHistoryLimit)
      ensures ok ==>
        var scaled := if p.flavour.ReplicaSets? then old(versions)[v.name := v.(replicas := 0)] else old(versions);
        && Continues(old(run), run) && AtQueue(p, job, rest)
        && versions == (if kept then scaled else scaled - {v.name})
        && hpas == (if p.flavour.ReplicaSets? then old(hpas) - {v.name} else old(hpas))
        && (!kept && UsageFor(view.usage, v).Some? ==> v.id.Some? && Removed(server, v.id.value))
    {
      assert v.name in versions && versions[v.name].id == v.id;
      hide *;
      kept := RetainForRollback(p.mode, historicCount, p.rsd.revisionHistoryLimit);
      ok := ScaleDown(p, view, v, job, (if kept then [] else TearDownWrites(view, v)) + rest);
      if ok {
        if kept {
          assert [] + rest == rest;
        } else {
          ghost var between := run;
          ok := TearDown(p, view, v, job, rest);
          if ok { ContinuesOn(old(run), between, run); } else { StopsOn(old(run), between, run); }
        }
      }
    }

    // The drain delay starts when the deadline is written.
    method ScheduleRemoval(p: Pass, v: Version, ghost job: Job, ghost rest: seq<Write>) returns (ok: bool, at: Time)
      requires Valid() && Lookup(versions, v.name) == Some(v)
      requires AtQueue(p, job, [StampDeadline(v.name, p.rsd.DrainDelay())] + rest)
      modifies this
      ensures Valid() && old(clock) <= clock
      ensures !ok ==> phase == Idle && Stops(old(run), run)
      ensures ok ==>
        && Continues(old(run), run) && AtQueue(p, job, rest)
        && versions == old(versions)[v.name := v.(removeAt := Some(At(at)))] && hpas == old(hpas)
        && DelayEnds(p.rsd, clock, at)
    {
      ok := Send(p, StampDeadline(v.name, p.rsd.DrainDelay()), job, rest);
      at := clock + p.rsd.DrainDelay();
    }

    // The loop is at version `i`.
    ghost predicate AtTurn(
        p: Pass, view: View, order: seq<Name>, i: nat, tally: Tally, job: Job, failed: set<Name>, since: Time)
      reads this
    {
      && i <= |order| && AtQueue(p, job, WritesFrom(p, view, order, i)) && Counted(p, view, order, i, tally)
      && Stands(p, view, order, i, tally.next, failed, since, State())
    }

    // The next version is as the pass saw it.
    lemma TurnComes(
        p: Pass, view: View, order: seq<Name>, i: nat, tally: Tally, job: Job, failed: set<Name>, since: Time)
      requires AtTurn(p, view, order, i, tally, job, failed, since) && i < |order| && SeesCandidates(view, order)
      ensures Lookup(versions, order[i]) == Some(view.versions[order[i]])
      ensures (order[i] in hpas <==> order[i] in view.hpas) && order[i] !in failed
      ensures AtQueue(p, job, WritesFrom(p, view, order, i)) && Counted(p, view, order, i, tally)
      ensures Stands(p, view, order, i, tally.next, failed, since, State())
      ensures State().versions == versions && State().hpas == hpas && State().server == server && State().clock == clock
    {
      NextIsUntouched(p, view, order, i, versions, hpas, failed, since, clock);
    }

    // The turn is over, and the loop is at the next version.
    lemma TurnEnds(
        p: Pass, view: View, order: seq<Name>, i: nat, before: seq<Label>, w: World, was: Tally, tally: Tally,
        job: Job, wasFailed: set<Name>, failed: set<Name>, since: Time, deadline: Option<Time>)
      requires Valid() && Continues(before, run) && w == Exec(origin, before) && w.clock <= clock
      requires i < |order| && SeesCandidates(view, order) && Stands(p, view, order, i, was.next, wasFailed, since, w)
      requires Turned(p, view, order, i, w.versions, w.hpas, wasFailed, versions, hpas, failed, since, clock)
      requires deadline.Some? <==> Outstanding(p, view.usage, view.versions[order[i]])
      requires deadline.Some? ==> HasDeadline(versions, order[i], deadline.value)
      requires Deregisters(p, view, order, i) ==> Removed(server, view.versions[order[i]].id.value)
      requires tally.next == if deadline.Some? then Sooner(was.next, deadline.value) else was.next
      requires AtQueue(p, job, WritesFrom(p, view, order, i + 1)) && Counted(p, view, order, i + 1, tally)
      ensures AtTurn(p, view, order, i + 1, tally, job, failed, since)
    {
      TurnDeregisters(before, w, p, view, order, i);
      hide Exec, Initial, Continues, Progress, Turned, IsSoonest, DeregisteredAmong, Deregisters, Removed, Counted,
        HasDeadline, Outstanding, Sooner, AtQueue;
      VisitStep(p, view, order, i, w.versions, w.hpas, wasFailed, w.clock, versions, hpas, failed, clock, since,
        was.next, deadline);
    }

    // Restate still needs the version.
    method VisitActive(
        p: Pass, view: View, order: seq<Name>, i: nat, deployment: DeploymentUsage, was: Tally,
        ghost job: Job, ghost wasFailed: set<Name>, ghost since: Time)
      returns (ok: bool, tally: Tally, ghost failed: set<Name>)
      requires Valid() && AtTurn(p, view, order, i, was, job, wasFailed, since) && i < |order|
      requires SeesCandidates(view, order) && Judge(p, view.usage, view.versions[order[i]]) == Blocked(deployment)
      modifies this
      ensures Valid() && old(clock) <= clock
      ensures !ok ==> phase == Idle && Stops(old(run), run)
      ensures ok ==> Continues(old(run), run) && AtTurn(p, view, order, i + 1, tally, job, failed, since)
    {
      var v := view.versions[order[i]];
      ghost var w := State();
      IsItsRun();
      TurnComes(p, view, order, i, was, job, wasFailed, since);
      ActiveTurn(p, view, order, i);
      ActiveCounts(p, view, order, i, was);
      DeregistersWhen(p, view, order, i);
      tally := was.(blocking := was.blocking + [BlockingVersion(v.name, v.id, deployment)]);
      hide *;
      ghost var hpaFailed: bool;
      ok, hpaFailed := KeepActive(p, view, v, job, WritesFrom(p, view, order, i + 1));
      failed := if hpaFailed then wasFailed + {order[i]} else wasFailed;
      if ok {
        ActiveIsTurned(p, view, order, i, w.versions, w.hpas, wasFailed, versions, hpas, hpaFailed, since, clock);
        TurnEnds(p, view, order, i, old(run), w, was, tally, job, wasFailed, failed, since, None);
      }
    }

    // Nothing needs the version, and it has waited out its drain or needs none.
    method VisitDue(
        p: Pass, view: View, order: seq<Name>, i: nat, deployment: Option<DeploymentUsage>, was: Tally,
        ghost job: Job, ghost failed: set<Name>, ghost since: Time)
      returns (ok: bool, tally: Tally)
      requires Valid() && AtTurn(p, view, order, i, was, job, failed, since) && i < |order|
      requires SeesCandidates(view, order) && Judge(p, view.usage, view.versions[order[i]]).Due?
      requires deployment == UsageFor(view.usage, view.versions[order[i]])
      modifies this
      ensures Valid() && old(clock) <= clock
      ensures !ok ==> phase == Idle && Stops(old(run), run)
      ensures ok ==> Continues(old(run), run) && AtTurn(p, view, order, i + 1, tally, job, failed, since)
    {
      var v := view.versions[order[i]];
      ghost var w := State();
      IsItsRun();
      TurnComes(p, view, order, i, was, job, failed, since);
      DueTurn(p, view, order, i);
      DueCounts(p, view, order, i, was);
      DeregistersWhen(p, view, order, i);
      hide *;
      var kept: bool;
      ok, kept := Retire(p, view, v, was.historicCount, job, WritesFrom(p, view, order, i + 1));
      tally :=
        if kept then was.(historicCount := was.historicCount + 1)
        else if deployment.Some? && deployment.value.InFlight() > 0
        then was.(abandoned := was.abandoned + [BlockingVersion(v.name, v.id, deployment.value)])
        else was;
      if ok {
        DueIsTurned(p, view, order, i, w.versions, w.hpas, failed, versions, hpas, since, clock);
        TurnEnds(p, view, order, i, old(run), w, was, tally, job, failed, failed, since, None);
      }
    }

    // The version waits out its drain, from now on if it had no deadline.
    method VisitOutstanding(
        p: Pass, view: View, order: seq<Name>, i: nat, removeAt: Option<Time>, was: Tally,
        ghost job: Job, ghost failed: set<Name>, ghost since: Time)
      returns (ok: bool, tally: Tally)
      requires Valid() && AtTurn(p, view, order, i, was, job, failed, since) && i < |order|
      requires SeesCandidates(view, order)
      requires Judge(p, view.usage, view.versions[order[i]]) ==
        if removeAt.Some? then Waiting(removeAt.value) else Unstamped
      modifies this
      ensures Valid() && old(clock) <= clock
      ensures !ok ==> phase == Idle && Stops(old(run), run)
      ensures ok ==> Continues(old(run), run) && AtTurn(p, view, order, i + 1, tally, job, failed, since)
    {
      var v := view.versions[order[i]];
      ghost var w := State();
      IsItsRun();
      TurnComes(p, view, order, i, was, job, failed, since);
      WaitingTurn(p, view, order, i);
      OutstandingCounts(p, view, order, i, was);
      DeregistersWhen(p, view, order, i);
      assert since <= clock;
      hide *;
      ok := true;
      var at: Time;
      if removeAt.Some? {
        at := removeAt.value;
        assert [] + WritesFrom(p, view, order, i + 1) == WritesFrom(p, view, order, i + 1);
        ContinuesItself(run);
      } else {
        ok, at := ScheduleRemoval(p, v, job, WritesFrom(p, view, order, i + 1));
      }
      tally := was.(next := Sooner(was.next, at));
      if ok {
        OutstandingIsTurned(p, view, order, i, w.versions, w.hpas, failed, versions, at, since, clock);
        TurnEnds(p, view, order, i, old(run), w, was, tally, job, failed, failed, since, Some(at));
      }
    }

    // One version's turn, by how it is judged.
    method Visit(
        p: Pass, view: View, order: seq<Name>, i: nat, was: Tally,
        ghost job: Job, ghost wasFailed: set<Name>, ghost since: Time)
      returns (ok: bool, tally: Tally, ghost failed: set<Name>)
      requires Valid() && AtTurn(p, view, order, i, was, job, wasFailed, since) && i < |order|
      requires SeesCandidates(view, order)
      modifies this
      ensures Valid() && old(clock) <= clock
      ensures !ok ==> phase == Idle && Stops(old(run), run)
      ensures ok ==> Continues(old(run), run) && AtTurn(p, view, order, i + 1, tally, job, failed, since)
    {
      hide *;
      IsCandidate(view, order, i);
      var v := view.versions[order[i]];
      var deployment := UsageFor(view.usage, v);
      var removeAt := if v.removeAt.Some? && v.removeAt.value.At? then Some(v.removeAt.value.time) else None;
      var inPast := (removeAt.Some? && removeAt.value < p.now) || p.mode.SkipsDrainDelay();
      BranchesJudge(p, view.usage, v);
      failed := wasFailed;
      if deployment.Some? && deployment.value.IsActive(p.mode) {
        ok, tally, failed := VisitActive(p, view, order, i, deployment.value, was, job, wasFailed, since);
      } else if inPast || deployment.None? {
        ok, tally := VisitDue(p, view, order, i, deployment, was, job, wasFailed, since);
      } else {
        ok, tally := VisitOutstanding(p, view, order, i, removeAt, was, job, wasFailed, since);
      }
    }

    // The cleanup loop over every superseded version, newest first.
    method CleanupOldVersions(p: Pass, view: View, order: seq<Name>)
      returns (outcome: Option<CleanupOutcome>, ghost failed: set<Name>)
      requires Valid() && AtQueue(p, JobFor(p, view, order), PassWrites(p, view, order, 0))
      requires view.versions == versions && view.hpas == hpas && SeesCandidates(view, order)
      modifies this
      ensures Valid() && old(clock) <= clock
      ensures outcome.None? ==> phase == Idle && Stops(old(run), run)
      ensures outcome.Some? ==>
        && Continues(old(run), run)
        && AtQueue(p, JobFor(p, view, order), [])
        && Progress(p, view, order, |order|, versions, hpas, failed, old(clock), clock)
        && Reports(outcome.value, p, view, order, versions, clock)
        && DeregisteredAmong(p, view, order, |order|, server)
    {
      var tally := Tally([], [], 0, None);
      var i := 0;
      failed := {};
      ghost var job := JobFor(p, view, order);
      ghost var since := clock;
      LoopBegins(p, view, order, job);
      hide *;
      ContinuesItself(run);
      while i < |order|
        invariant Valid() && since <= clock && Continues(old(run), run)
        invariant i <= |order| && AtTurn(p, view, order, i, tally, job, failed, since)
      {
        ghost var before := run;
        var ok: bool;
        ok, tally, failed := Visit(p, view, order, i, tally, job, failed, since);
        if !ok {
          StopsOn(old(run), before, run);
          return None, failed;
        }
        ContinuesOn(old(run), before, run);
        i := i + 1;
      }
      ghost var visited := run;
      var finished := CloseLoop(p, view, order, tally, job, failed, since);
      ContinuesOn(old(run), visited, run);
      outcome := Some(finished);
    }

    // With versions that block and no removal to wake up for, come back shortly.
    method CloseLoop(
        p: Pass, view: View, ghost order: seq<Name>, tally: Tally, ghost job: Job, ghost failed: set<Name>,
        ghost since: Time)
      returns (outcome: CleanupOutcome)
      requires Valid() && AtTurn(p, view, order, |order|, tally, job, failed, since)
      modifies `rsd, `server, `clock, `run
      ensures Valid() && Continues(old(run), run) && old(clock) <= clock
      ensures AtQueue(p, job, [])
      ensures Progress(p, view, order, |order|, versions, hpas, failed, since, clock)
      ensures Reports(outcome, p, view, order, versions, clock)
      ensures DeregisteredAmong(p, view, order, |order|, server)
    {
      LoopEnds(p, view, order, tally, job, failed, since);
      ghost var w := State();
      IsItsRun();
      hide *;
      Pause();
      var blocked := tally.blocking != [];
      outcome := CleanupOutcome(
        tally.blocking,
        if blocked && tally.next.None? then Some(clock + 10 * SECOND) else tally.next,
        tally.abandoned);
      ProgressLasts(p, view, order, versions, hpas, failed, since, w.clock, clock);
      ReportsSoonestOrPoll(tally.next, outcome, p, view, order, versions, clock);
      ContinuesExtends(old(run), run);
      StaysDeregistered(old(run), w, p, view, order, |order|);
    }

    lemma LoopBegins(p: Pass, view: View, order: seq<Name>, job: Job)
      requires AtQueue(p, job, PassWrites(p, view, order, 0)) && view.versions == versions && view.hpas == hpas
      ensures AtTurn(p, view, order, 0, Tally([], [], 0, None), job, {}, clock)
    {
      NothingVisited(p, view, order, versions, hpas, clock);
    }

    lemma LoopEnds(
        p: Pass, view: View, order: seq<Name>, tally: Tally, job: Job, failed: set<Name>, since: Time)
      requires AtTurn(p, view, order, |order|, tally, job, failed, since)
      ensures AtQueue(p, job, [])
      ensures Progress(p, view, order, |order|, versions, hpas, failed, since, clock)
      ensures tally.blocking == BlockingAmong(p, view, order)
      ensures tally.abandoned == AbandonedAmong(p, view, order, |order|)
      ensures IsSoonest(tally.next, p, view, order, versions)
      ensures DeregisteredAmong(p, view, order, |order|, State().server)
    {
      EverythingVisited(p, view, order);
    }

    // --- Reads, and the steps of a pass between its writes ---

    // A step that moves the pass on and writes nothing.
    ghost method Move(c: Choice, next: Phase, seen: set<Name>)
      requires Valid() && Step(State(), Op(c)) == State().(phase := next, disturbed := seen)
      modifies `phase, `disturbed, `run
      ensures Valid() && phase == next && disturbed == seen
      ensures run == old(run) + [Op(c)] && LastPhase() == old(phase)
    {
      ExecSnoc(origin, run, Op(c));
      assert (run + [Op(c)])[..|run|] == run;
      hide Step, OpStep, Exec, Initial;
      phase, disturbed := next, seen;
      run := run + [Op(c)];
    }

    // The ids recorded on the owned versions, in order.
    method OwnedIds() returns (owned: seq<DeploymentId>)
      ensures ListsOwned(owned, versions) && Ordered(owned)
    {
      owned := [];
      var rest := versions.Keys;
      while rest != {}
        invariant rest <= versions.Keys && Ordered(owned)
        invariant forall n :: n in versions && n !in rest && versions[n].id.Some? ==> versions[n].id.value in owned
        invariant forall id :: id in owned ==> exists n :: n in versions && versions[n].id == Some(id)
        decreases |rest|
      {
        var n :| n in rest;
        rest := rest - {n};
        if versions[n].id.Some? {
          InsertKeepsOrder(owned, versions[n].id.value);
          owned := Insert(owned, versions[n].id.value);
        }
      }
    }

    // The newest of some versions.
    method Newest(names: set<Name>) returns (newest: Name)
      requires names != {} && names <= versions.Keys
      ensures newest in names && forall n :: n in names ==> versions[newest].created >= versions[n].created
    {
      newest :| newest in names;
      var rest := names - {newest};
      while rest != {}
        invariant newest in names && rest <= names
        invariant forall n :: n in names - rest ==> versions[newest].created >= versions[n].created
        decreases |rest|
      {
        var n :| n in rest;
        rest := rest - {n};
        if versions[n].created > versions[newest].created {
          newest := n;
        }
      }
    }

    // The candidates of a pass, sorted by creation time with the newest first.
    method NewestFirst(except: Option<Name>) returns (order: seq<Name>)
      ensures IsNewestFirst(order, versions, except)
    {
      order := [];
      var rest := set n | n in versions && Some(n) != except;
      while rest != {}
        invariant Distinct(order)
        invariant forall n :: (n in order || n in rest) <==> (n in versions && Some(n) != except)
        invariant forall n :: n in order ==> n !in rest
        invariant forall i, j :: 0 <= i < j < |order| ==> versions[order[i]].created >= versions[order[j]].created
        invariant forall i, n :: 0 <= i < |order| && n in rest ==> versions[order[i]].created >= versions[n].created
        decreases |rest|
      {
        var n := Newest(rest);
        order, rest := order + [n], rest - {n};
      }
    }

    lemma Named()
      requires Valid()
      ensures Inv(State()) && forall n :: n in versions ==> versions[n].name == n
    {
      InitialIsInvariant(origin);
      RunKeepsInvariant(origin, run);
    }

    // --- Adopting the current version ---

    method SendAdopting(spec: Rsd, x: Write, ghost rest: seq<Write>) returns (ok: bool)
      requires Valid() && phase == Adopting(spec, [x] + rest) && !x.EnsureHpa?
      modifies this
      ensures Valid() && old(clock) <= clock
      ensures !ok ==> phase == Idle && Stops(old(run), run) && EndsEarlier()
      ensures ok ==>
        && Continues(old(run), run) && phase == Adopting(spec, rest)
        && View(versions, map[], hpas) == Effect(View(old(versions), map[], old(hpas)), x, clock).(usage := map[])
    {
      assert ([x] + rest)[1..] == rest;
      ok := Issue(x);
    }

    // Create this version's object, or scale an existing one back up and drop the deadline it
    // drained under.
    method EnsureVersion(spec: Rsd, ghost rest: seq<Write>) returns (ok: bool)
      requires Valid() && (forall n :: n in versions ==> versions[n].name == n)
      requires phase == Adopting(spec,
        (if spec.desired in versions
         then [RestoreScale(spec.desired, spec.replicas)]
              + (if versions[spec.desired].removeAt.Some? then [ClearDeadline(spec.desired)] else [])
         else [Create(spec.desired, spec.replicas)]) + rest)
      modifies this
      ensures Valid() && old(clock) <= clock
      ensures !ok ==> phase == Idle && Stops(old(run), run) && EndsEarlier()
      ensures ok ==>
        && Continues(old(run), run) && phase == Adopting(spec, rest) && hpas == old(hpas)
        && spec.desired in versions && versions == old(versions)[spec.desired := versions[spec.desired]]
        && versions[spec.desired] ==
           (if spec.desired in old(versions) then old(versions)[spec.desired]
            else Version(spec.desired, versions[spec.desired].created, 0, None, None))
           .(replicas := spec.replicas, removeAt := None)
    {
      if spec.desired in versions {
        ghost var clear := if versions[spec.desired].removeAt.Some? then [ClearDeadline(spec.desired)] else [];
        var scheduled := versions[spec.desired].removeAt.Some?;
        assert phase.writes == [RestoreScale(spec.desired, spec.replicas)] + (clear + rest);
        ok := SendAdopting(spec, RestoreScale(spec.desired, spec.replicas), clear + rest);
        if !ok { return; }
        if scheduled {
          ok := SendAdopting(spec, ClearDeadline(spec.desired), rest);
        } else {
          assert clear + rest == rest;
        }
      } else {
        ok := SendAdopting(spec, Create(spec.desired, spec.replicas), rest);
      }
    }

    // The current version is scaled with the spec, so an autoscaler it drained with goes.
    method Adopt(spec: Rsd) returns (ok: bool)
      requires Valid() && phase == Adopting(spec, AdoptionWrites(State(), spec))
      modifies this
      ensures Valid() && old(clock) <= clock
      ensures !ok ==> phase == Idle && Stops(old(run), run) && EndsEarlier()
      ensures ok ==>
        && Continues(old(run), run) && phase == Checking(spec)
        && Readied(spec, old(versions), old(hpas), versions, hpas)
        && spec.desired in versions && versions[spec.desired] ==
           (if spec.desired in old(versions) then old(versions)[spec.desired]
            else Version(spec.desired, versions[spec.desired].created, 0, None, None))
           .(replicas := spec.replicas, removeAt := None)
    {
      Named();
      ghost var unscale := if spec.desired in hpas then [DeleteHpa(spec.desired)] else [];
      ghost var before := run;
      ok := EnsureVersion(spec, unscale);
      hide Valid, State, Initial, Exec, Inv, Continues, AdoptionWrites;
      if !ok { return; }
      ghost var ensured := run;
      ok := DropHpa(spec);
      if !ok { return; }
      ContinuesOn(before, ensured, run);
      ensured := run;
      FinishAdopting(spec);
      ContinuesOn(before, ensured, run);
    }

    method DropHpa(spec: Rsd) returns (ok: bool)
      requires Valid() && phase == Adopting(spec, if spec.desired in hpas then [DeleteHpa(spec.desired)] else [])
      modifies this
      ensures Valid() && old(clock) <= clock
      ensures !ok ==> phase == Idle && Stops(old(run), run) && EndsEarlier()
      ensures ok ==>
        && Continues(old(run), run) && phase == Adopting(spec, [])
        && versions == old(versions) && hpas == old(hpas) - {spec.desired}
    {
      ok := true;
      if spec.desired in hpas {
        assert [DeleteHpa(spec.desired)] == [DeleteHpa(spec.desired)] + [];
        ok := SendAdopting(spec, DeleteHpa(spec.desired), []);
      }
    }

    ghost method FinishAdopting(spec: Rsd)
      requires Valid() && phase == Adopting(spec, [])
      modifies `phase, `disturbed, `run
      ensures Valid() && Continues(old(run), run) && phase == Checking(spec)
    {
      Move(Anything, Checking(spec), disturbed + {spec.desired});
    }

    // --- Registering it ---

    // Nothing else is owned and Restate routes to the recorded id.
    method Check(spec: Rsd) returns (upToDate: bool)
      requires Valid() && phase == Checking(spec)
      modifies this
      ensures Valid() && Continues(old(run), run) && old(clock) <= clock
      ensures phase == if upToDate then Idle else Querying(spec)
      ensures upToDate ==> run != [] && LastPhase() == Checking(spec)
      ensures upToDate <==> FastPath(State(), spec)
      ensures versions == old(versions) && hpas == old(hpas)
    {
      Pause();
      upToDate :=
        && versions.Keys <= {spec.desired}
        && spec.desired in versions && versions[spec.desired].id.Some?
        && IsLatest(server, versions[spec.desired].id.value);
      assert upToDate == FastPath(State(), spec);
      Move(Anything, if upToDate then Idle else Querying(spec), disturbed);
    }

    // The usage query, and what it says to do about the endpoint.
    method Query(spec: Rsd, ready: bool) returns (action: Action, snapshot: UsageMap)
      requires Valid() && phase == Querying(spec)
      modifies this
      ensures Valid() && Continues(old(run), run) && old(clock) <= clock
      ensures versions == old(versions) && hpas == old(hpas)
      ensures phase ==
        if action.Conflict? then Idle
        else if action.AlreadyLatest? || !ready then Planning(spec, Rollout, snapshot, Some(spec.desired))
        else Registering(spec, snapshot, action.Overwrites())
      ensures action.Conflict? ==> run != [] && LastPhase() == Querying(spec)
      ensures snapshot == UsageOf(server, Rollout)
      ensures exists owned ::
        && ListsOwned(owned, versions) && Ordered(owned)
        && action == PlanRegistration(Recorded(State(), spec.desired), snapshot, owned)
      // it goes on without registering only if Restate routes to the recorded id, or on pods not ready
      ensures action.AlreadyLatest? ==> run != [] && RoutedAt(origin, run, |run| - 1, spec)
      ensures !action.AlreadyLatest? && !action.Conflict? && !ready ==> run != [] && UnreadyAt(origin, run, |run| - 1, spec)
    {
      Pause();
      var owned := OwnedIds();
      snapshot := UsageOf(server, Rollout);
      var recorded := if spec.desired in versions then versions[spec.desired].id else None;
      action := PlanRegistration(recorded, snapshot, owned);
      ghost var c := Anything.(ready := ready, owned := owned);
      ghost var w, before := State(), run;
      hide *;
      QueryFacts(spec, recorded, c);
      Move(c,
        if action.Conflict? then Idle
        else if action.AlreadyLatest? || !ready then Planning(spec, Rollout, snapshot, Some(spec.desired))
        else Registering(spec, snapshot, action.Overwrites()), disturbed);
      if action.AlreadyLatest? {
        RoutedNow(before, w, c, spec);
      } else if !action.Conflict? && !ready {
        UnreadyNow(before, w, c, spec);
      }
    }

    // What the next step of a pass that asks for usage does and tells.
    lemma QueryFacts(spec: Rsd, recorded: Option<DeploymentId>, c: Choice)
      requires Valid() && phase == Querying(spec) && ListsOwned(c.owned, versions)
      requires recorded == if spec.desired in versions then versions[spec.desired].id else None
      ensures
        var w, snapshot := State(), UsageOf(server, Rollout);
        var action := PlanRegistration(recorded, snapshot, c.owned);
        && w == Exec(origin, run) && w.phase == phase && w.server == server
        && recorded == Recorded(w, spec.desired)
        && Step(w, Op(c)) == w.(disturbed := disturbed, phase :=
             if action.Conflict? then Idle
             else if action.AlreadyLatest? || !c.ready then Planning(spec, Rollout, snapshot, Some(spec.desired))
             else Registering(spec, snapshot, action.Overwrites()))
        && (action.AlreadyLatest? ==> recorded.Some? && IsLatest(server, recorded.value))
        && (!action.AlreadyLatest? && recorded.Some? ==> !IsLatest(server, recorded.value))
    {
      Named();
      QueryMoves(State(), c);
      PlanTells(State(), spec, c.owned);
      hide Exec, Initial, Inv, UsageOf, PlanRegistration, ListsOwned, Step;
    }

    // The step just taken, from the world `w`, found Restate routing to the current version.
    lemma RoutedNow(before: seq<Label>, w: World, c: Choice, spec: Rsd)
      requires Valid() && w == Exec(origin, before) && run == before + [Op(c)] && phase.Planning?
      requires
        || (w.phase == Querying(spec) && Recorded(w, spec.desired).Some?
            && IsLatest(w.server, Recorded(w, spec.desired).value))
        || (w.phase.Confirming? && w.phase.rsd == spec && ConfirmedLatest(w.server, w.phase.id, Services(w, spec.desired)))
      ensures RoutedAt(origin, run, |run| - 1, spec)
    {
      hide Exec, Initial, IsLatest, ConfirmedLatest, Recorded, Services;
      IsItsRun();
      LastSteps(before, Op(c));
      hide Valid, State;
    }

    lemma UnreadyNow(before: seq<Label>, w: World, c: Choice, spec: Rsd)
      requires Valid() && w == Exec(origin, before) && run == before + [Op(c)] && !c.ready
      requires w.phase == Querying(spec) && phase.Planning?
      requires Recorded(w, spec.desired).Some? ==> !IsLatest(w.server, Recorded(w, spec.desired).value)
      ensures UnreadyAt(origin, run, |run| - 1, spec)
    {
      hide Exec, Initial, IsLatest, Early, Recorded;
      IsItsRun();
      LastSteps(before, Op(c));
      hide Valid, State;
    }

    lemma LastSteps(before: seq<Label>, l: Label)
      requires run == before + [l]
      ensures After(origin, run, |run| - 1) == Exec(origin, before) && After(origin, run, |run|) == Exec(origin, run)
    {
      assert run[..|run| - 1] == before && run[..|run|] == run;
      hide Exec;
    }

    // `POST /deployments`; an unknown endpoint is issued an id.
    method RegisterEndpoint(spec: Rsd, snapshot: UsageMap, force: bool) returns (ok: bool, id: DeploymentId)
      requires Valid() && phase == Registering(spec, snapshot, force)
      modifies this
      ensures Valid() && old(clock) <= clock && versions == old(versions) && hpas == old(hpas)
      ensures !ok ==> phase == Idle && Stops(old(run), run) && EndsEarlier()
      ensures ok ==> Continues(old(run), run) && phase == Recording(spec, snapshot, id)
      ensures ok ==>
        && Own(spec.desired) in server.endpoints && server.endpoints[Own(spec.desired)] == id
        && (force ==> ConfirmedLatest(server, id, Services(State(), spec.desired)))
    {
      hide Exec, Initial, Consistent, Restate.Register, Take, Step, OpStep, LosesRegistration;
      Pause();
      var newId: DeploymentId := *;
      id := newId;
      if Own(spec.desired) !in server.endpoints && newId in server.minted {
        Stop();
        return false, id;
      }
      var services := if spec.desired in discovery then discovery[spec.desired] else {};
      var registered := Restate.Register(server, Own(spec.desired), services, force, newId);
      ghost var c := Anything.(newId := newId);
      Named();
      RegisteredWell(State(), force, newId);
      RegisteringStep(State(), c);
      ExecSnoc(origin, run, Op(c));
      hide *;
      server, id := registered.0, registered.1;
      phase := Recording(spec, snapshot, id);
      run := run + [Op(c)];
      ok := true;
    }

    // The id goes on the version whether or not Restate turns out to route to it.
    method Record(spec: Rsd, snapshot: UsageMap, id: DeploymentId) returns (ok: bool)
      requires Valid() && phase == Recording(spec, snapshot, id) && spec.desired in versions
      modifies this
      ensures Valid() && old(clock) <= clock && hpas == old(hpas)
      ensures !ok ==> phase == Idle && Stops(old(run), run) && EndsEarlier()
      ensures ok ==>
        && Continues(old(run), run) && phase == Confirming(spec, snapshot, id)
        && versions == old(versions)[spec.desired := old(versions)[spec.desired].(id := Some(id))]
    {
      Pause();
      if * {
        Stop();
        return false;
      }
      RecordMoves(State(), spec.desired, id);
      ExecSnoc(origin, run, Op(Anything));
      hide *;
      versions := versions[spec.desired := versions[spec.desired].(id := Some(id))];
      phase, lost := Confirming(spec, snapshot, id), lost - {spec.desired};
      run := run + [Op(Anything)];
      ok := true;
    }

    // Ask Restate what it routes, rather than trust the response to the registration.
    method Confirm(spec: Rsd, snapshot: UsageMap, id: DeploymentId) returns (confirmed: bool)
      requires Valid() && phase == Confirming(spec, snapshot, id)
      modifies this
      ensures Valid() && Continues(old(run), run) && old(clock) <= clock
      ensures versions == old(versions) && hpas == old(hpas)
      ensures phase ==
        if confirmed then Planning(spec, Rollout, snapshot[id := DeploymentUsage(true, 0, 0)], Some(spec.desired)) else Idle
      ensures !confirmed ==> run != [] && LastPhase() == Confirming(spec, snapshot, id)
      ensures confirmed <==> ConfirmedLatest(server, id, Services(State(), spec.desired))
      ensures confirmed ==> run != [] && RoutedAt(origin, run, |run| - 1, spec)
    {
      Pause();
      ghost var w, before := State(), run;
      var services := if spec.desired in discovery then discovery[spec.desired] else {};
      confirmed := ConfirmedLatest(server, id, services);
      Move(Anything,
        if confirmed then Planning(spec, Rollout, snapshot[id := DeploymentUsage(true, 0, 0)], Some(spec.desired)) else Idle,
        disturbed);
      if confirmed {
        RoutedNow(before, w, Anything, spec);
      }
    }

    // --- Whole passes ---

    // One cleanup over the versions as they now are, judged by an earlier usage snapshot.
    method Clean(spec: Rsd, mode: CleanupMode, snapshot: UsageMap, except: Option<Name>)
      returns (outcome: Option<CleanupOutcome>, ghost report: Report)
      requires Valid() && phase == Planning(spec, mode, snapshot, except)
      modifies this
      ensures Valid() && old(clock) <= clock
      ensures outcome.None? ==> phase == Idle && Stops(old(run), run)
      ensures outcome.Some? ==>
        && Continues(old(run), run)
        && run != [] && LastPhase().Cleaning?
        && report.p.mode == mode && report.view == View(old(versions), snapshot, old(hpas))
        && report.outcome == outcome.value && Describes(report, spec, except)
        && phase == (if mode.IsDeleting() && outcome.value.blocking == [] && outcome.value.nextRemoval.None?
                     then Released(false) else Idle)
    {
      hide Exec, Initial, Continues, Stops, Inv, PassWrites, IsNewestFirst, SeesCandidates, Progress, Reports,
        DeregisteredAmong, JobFor;
      Pause();
      ghost var paused := run;
      var order := NewestFirst(except);
      var p := Pass(ReplicaSets, spec, mode, clock);
      var view := View(versions, snapshot, hpas);
      ghost var job := JobFor(p, view, order);
      Named();
      SeesOwned(view, order, except);
      StartCleaning(p, view, order, except);
      ghost var cleaning := run;
      ContinuesOn(old(run), paused, cleaning);
      ghost var failed: set<Name>;
      outcome, failed := CleanupOldVersions(p, view, order);
      report := Report(p, view, order, failed, clock, CleanupOutcome([], None, []));
      if outcome.Some? {
        report := report.(outcome := outcome.value);
        ghost var finished := run;
        SettledWhenReported(p, view, order, outcome.value, versions, clock);
        FinishCleaning(p, job);
        ContinuesOn(old(run), cleaning, finished);
        ContinuesOn(old(run), finished, run);
      } else {
        StopsOn(old(run), cleaning, run);
      }
    }

    ghost method StartCleaning(p: Pass, view: View, order: seq<Name>, except: Option<Name>)
      requires Valid() && phase == Planning(p.rsd, p.mode, view.usage, except)
      requires p == Pass(ReplicaSets, p.rsd, p.mode, clock) && view == View(versions, view.usage, hpas)
      requires IsNewestFirst(order, versions, except)
      modifies `phase, `disturbed, `run
      ensures Valid() && Continues(old(run), run)
      ensures AtQueue(p, JobFor(p, view, order), PassWrites(p, view, order, 0))
    {
      ghost var c := Anything.(order := order);
      PlanningStep(State(), c);
      assert PlannedJob(State(), order) == JobFor(p, view, order);
      hide Step, OpStep, IsNewestFirst, PassWrites;
      Move(c, Cleaning(p.rsd, p.mode, JobFor(p, view, order)), disturbed);
    }

    ghost method FinishCleaning(p: Pass, job: Job)
      requires Valid() && AtQueue(p, job, [])
      modifies `phase, `disturbed, `run
      ensures Valid() && Continues(old(run), run)
      ensures phase == if job.settled then Released(false) else Idle
      ensures run != [] && LastPhase().Cleaning?
    {
      Move(Anything, if job.settled then Released(false) else Idle, disturbed + job.active);
    }

    // What a finished cleanup left behind, against what it saw.
    ghost predicate Describes(report: Report, spec: Rsd, except: Option<Name>)
      reads this
    {
      var p, seen := report.p, report.view;
      && p.flavour == ReplicaSets && p.rsd == spec
      && IsNewestFirst(report.order, seen.versions, except)
      && (forall n :: n in seen.versions ==> seen.versions[n].name == n)
      && Progress(p, seen, report.order, |report.order|, versions, hpas, report.failed, p.now, report.until)
      && p.now <= report.until <= clock
      && Reports(report.outcome, p, seen, report.order, versions, report.until)
    }

    method Begin(ghost clusterGone: bool)
      requires Valid() && phase == Idle
      modifies `phase, `run
      ensures Valid() && run == old(run) + [Label.Begin(clusterGone)]
      ensures phase ==
        if rsd.deletedAt.None? then Adopting(rsd, AdoptionWrites(State(), rsd))
        else if clusterGone then Released(true)
        else QueryingForDeletion(rsd)
    {
      ghost var w := State();
      ExecSnoc(origin, run, Label.Begin(clusterGone));
      AdoptionIgnoresPhase(w);
      hide AdoptionWrites, Exec, Initial;
      phase :=
        if rsd.deletedAt.None? then Adopting(rsd, AdoptionWrites(State(), rsd))
        else if clusterGone then Released(true)
        else QueryingForDeletion(rsd);
      run := run + [Label.Begin(clusterGone)];
      assert State() == Step(w, Label.Begin(clusterGone));
    }

    // Register the current version, record its id and confirm the routing.
    method RegisterCurrent(spec: Rsd, snapshot: UsageMap, force: bool) returns (ok: bool, usage: Option<UsageMap>)
      requires Valid() && phase == Registering(spec, snapshot, force) && IsCurrent(spec, versions, hpas)
      modifies this
      ensures Valid() && old(clock) <= clock
      ensures !ok ==> phase == Idle && Stops(old(run), run) && EndsEarlier()
      ensures ok ==>
        && Continues(old(run), run) && Readied(spec, old(versions), old(hpas), versions, hpas)
        && phase == (if usage.Some? then Planning(spec, Rollout, usage.value, Some(spec.desired)) else Idle)
        && (usage.None? ==> run != [] && LastPhase().Confirming? && LastPhase().rsd == spec)
        && (usage.Some? ==> run != [] && RoutedAt(origin, run, |run| - 1, spec))
    {
      hide Exec, Initial, Valid, State, Continues, Stops, Readied, RoutedAt, LastPhase, ConfirmedLatest;
      usage := None;
      var id: DeploymentId;
      ok, id := RegisterEndpoint(spec, snapshot, force);
      if !ok { return; }
      ghost var registered := run;
      ok := Record(spec, snapshot, id);
      if !ok {
        StopsOn(old(run), registered, run);
        return;
      }
      RecordedIsReadied(spec, old(versions), old(hpas), id);
      ghost var recorded := run;
      ContinuesOn(old(run), registered, recorded);
      var confirmed := Confirm(spec, snapshot, id);
      ContinuesOn(old(run), recorded, run);
      usage := if confirmed then Some(snapshot[id := DeploymentUsage(true, 0, 0)]) else None;
    }

    // The step that ends a pass before its cleanup, by what the pass returns.
    ghost predicate EndsEarly(result: PassResult, spec: Rsd)
      reads this
    {
      match result
      case Failed => true
      case UpToDate => run != [] && LastPhase() == Checking(spec)
      case ForeignDeployment => run != [] && LastPhase() == Querying(spec)
      case NotLatest => run != [] && LastPhase().Confirming? && LastPhase().rsd == spec
      case _ => false
    }

    lemma EndsBy(result: PassResult, spec: Rsd)
      requires result.Failed? || result.UpToDate? || result.ForeignDeployment? || result.NotLatest?
      requires result.UpToDate? ==> run != [] && LastPhase() == Checking(spec)
      requires result.ForeignDeployment? ==> run != [] && LastPhase() == Querying(spec)
      requires result.NotLatest? ==> run != [] && LastPhase().Confirming? && LastPhase().rsd == spec
      ensures EndsEarly(result, spec)
    {
    }

    lemma EndsAsking(spec: Rsd)
      requires run != [] && LastPhase() == Querying(spec)
      ensures EndsEarlier()
    {
    }

    lemma EndsWith(result: PassResult, spec: Rsd)
      requires EndsEarly(result, spec)
      ensures result.Failed? || result.UpToDate? || result.ForeignDeployment? || result.NotLatest?
    {
    }

    // Everything a rollout pass does before its cleanup.
    method Prepare(spec: Rsd) returns (preparation: Preparation)
      requires Valid() && phase == Adopting(spec, AdoptionWrites(State(), spec))
      modifies this
      ensures Valid() && old(run) <= run
      ensures preparation.Ends? ==> phase == Idle && EndsEarly(preparation.result, spec)
      ensures preparation == Ends(Failed) ==> Stops(old(run), run) && EndsEarlier()
      ensures preparation.CleansUp? ==>
        && phase == Planning(spec, Rollout, preparation.snapshot, Some(spec.desired))
        && |old(run)| < |run|
        && (if preparation.ready then RoutedAt(origin, run, |run| - 1, spec) else UnreadyAt(origin, run, |run| - 1, spec))
      ensures preparation != Ends(Failed) ==>
        Continues(old(run), run) && Readied(spec, old(versions), old(hpas), versions, hpas)
    {
      hide *;
      ghost var begun := run;
      IsAdopting();
      var ok := Adopt(spec);
      if !ok {
        StopsExtends(begun, run);
        EndsBy(Failed, spec);
        return Ends(Failed);
      }
      ghost var adopted, va, ha := run, versions, hpas;
      ReadiedIsCurrent(spec, old(versions), old(hpas), versions, hpas);
      var upToDate := Check(spec);
      ghost var checked := run;
      ContinuesOn(begun, adopted, checked);
      ContinuesExtends(begun, checked);
      if upToDate {
        EndsBy(UpToDate, spec);
        return Ends(UpToDate);
      }
      if * {
        Stop();
        EndsAsking(spec);
        StopsOn(begun, checked, run);
        StopsExtends(begun, run);
        EndsBy(Failed, spec);
        return Ends(Failed);
      }
      var ready := *;
      var action, snapshot := Query(spec, ready);
      ghost var queried := run;
      ContinuesOn(begun, checked, queried);
      ContinuesExtends(begun, queried);
      if action.Conflict? {
        EndsBy(ForeignDeployment, spec);
        return Ends(ForeignDeployment);
      }
      if !action.AlreadyLatest? && ready {
        var usage: Option<UsageMap>;
        ok, usage := RegisterCurrent(spec, snapshot, action.Overwrites());
        if !ok {
          StopsOn(begun, queried, run);
          StopsExtends(begun, run);
          EndsBy(Failed, spec);
          return Ends(Failed);
        }
        ContinuesOn(begun, queried, run);
        ContinuesExtends(begun, run);
        ReadiedOn(spec, old(versions), old(hpas), va, ha, versions, hpas);
        if usage.None? {
          EndsBy(NotLatest, spec);
          return Ends(NotLatest);
        }
        snapshot := usage.value;
      }
      LongerThan(begun, spec);
      preparation := CleansUp(snapshot, action.AlreadyLatest? || ready);
    }

    // A pass in its planning phase has taken a step since it was adopting.
    lemma LongerThan(before: seq<Label>, spec: Rsd)
      requires Valid() && before <= run && phase.Planning?
      requires Exec(origin, before).phase.Adopting?
      ensures |before| < |run|
    {
      assert |before| == |run| ==> before == run;
      hide Exec;
    }

    lemma IsAdopting()
      requires Valid() && phase.Adopting?
      ensures Exec(origin, run).phase.Adopting?
    {
    }

    // What a pass that ended before its cleanup touched, from the state it began in.
    lemma PassEnded(before: seq<Label>, result: PassResult, spec: Rsd)
      requires Valid() && phase == Idle && EndsEarly(result, spec) && !result.Failed?
      requires Exec(origin, before).phase.Idle? && Exec(origin, before).rsd == spec && spec.deletedAt.None?
      requires Continues(before + [Label.Begin(false)], run)
      ensures OnlyRegisters(origin, run, |before|, spec.desired)
      ensures SameElsewhere(Exec(origin, before), State(), spec.desired)
      ensures NeverCleans(origin, run, |before|)
      ensures !result.NotLatest? ==> OnlyOthersMoveRestate(origin, run, |before|)
      ensures !SawUnready(origin, run, |before|, spec)
    {
      hide *;
      BeganAt(before);
      EndsAfterBeginning(before, result, spec);
      StartsInitial();
      PassWithoutCleanup(origin, run, |before|);
      BeginsOnce(before);
      EarlyIsRanked(After(origin, run, |run| - 1).phase, spec);
      NeverUnready(origin, run, |before|, spec);
    }

    lemma BeginsOnce(before: seq<Label>)
      requires Continues(before + [Label.Begin(false)], run) || Stops(before + [Label.Begin(false)], run)
      ensures |before| < |run| && forall i :: |before| < i < |run| ==> !run[i].Begin?
    {
    }

    // A pass stopped before its cleanup did not find the pods unready.
    lemma StoppedUnseen(before: seq<Label>, spec: Rsd)
      requires Valid() && phase == Idle && Stops(before + [Label.Begin(false)], run) && EndsEarlier()
      ensures !SawUnready(origin, run, |before|, spec)
    {
      BeginsOnce(before);
      IsLast();
      hide *;
      NeverUnready(origin, run, |before|, spec);
    }

    lemma IsLast()
      requires Valid() && phase == Idle && EndsEarlier()
      ensures Rank(After(origin, run, |run| - 1).phase).Some? && After(origin, run, |run|).phase.Idle?
    {
      assert run[..|run|] == run;
      hide Exec;
    }

    lemma StartsInitial()
      requires Valid()
      ensures Initial(origin)
    {
    }

    lemma BeganAt(before: seq<Label>)
      requires Exec(origin, before).phase.Idle? && Exec(origin, before).rsd.deletedAt.None?
      requires Continues(before + [Label.Begin(false)], run)
      ensures PassFrom(origin, run, |before|) && After(origin, run, |before|) == Exec(origin, before)
    {
      assert run[..|before|] == before;
    }

    lemma EndsAfterBeginning(before: seq<Label>, result: PassResult, spec: Rsd)
      requires Valid() && EndsEarly(result, spec) && !result.Failed?
      requires Exec(origin, before).phase.Idle? && Continues(before + [Label.Begin(false)], run)
      ensures |before| + 1 < |run| && Early(After(origin, run, |run| - 1).phase, spec)
      ensures result.NotLatest? || Rank(After(origin, run, |run| - 1).phase).value < 3
      ensures After(origin, run, |run|) == State() && State().phase == phase
    {
      hide Exec, Initial;
      assert run[..|run|] == run;
      EndsLater(before, result, spec);
    }

    // A pass that ended is not still at its beginning.
    lemma EndsLater(before: seq<Label>, result: PassResult, spec: Rsd)
      requires run != [] && EndsEarly(result, spec) && !result.Failed?
      requires Exec(origin, before).phase.Idle? && Continues(before + [Label.Begin(false)], run)
      ensures |before| + 1 < |run|
    {
      hide Exec;
      assert run[..|before|] == before;
    }

    // The last stage of a rollout pass; the current version is left out of it.
    method CleanRollout(spec: Rsd, snapshot: UsageMap)
      returns (outcome: Option<CleanupOutcome>, ghost report: Report)
      requires Valid() && phase == Planning(spec, Rollout, snapshot, Some(spec.desired))
      requires IsCurrent(spec, versions, hpas)
      modifies this
      ensures Valid() && phase == Idle && (outcome.None? ==> Stops(old(run), run))
      ensures outcome.Some? ==>
        && Continues(old(run), run) && IsCurrent(spec, versions, hpas)
        && (report.failed == {} ==> AutoscalersMatch(report.p, report.view, spec.desired, hpas))
        && run != [] && LastPhase().Cleaning?
        && report.p.mode == Rollout && report.view == View(old(versions), snapshot, old(hpas))
        && report.outcome == outcome.value && Describes(report, spec, Some(spec.desired))
    {
      outcome, report := Clean(spec, Rollout, snapshot, Some(spec.desired));
      if outcome.Some? {
        assert spec.desired !in report.order[..|report.order|];
        assert Lookup(versions, spec.desired) == Lookup(report.view.versions, spec.desired);
        AutoscalersAgree(report.p, report.view, report.order, spec.desired, versions, hpas, report.p.now, report.until);
      }
    }

    // A finished rollout cleanup, judged on the versions the pass found but for the current one,
    // which it had adopted.
    ghost predicate CleanedAfter(report: Report, spec: Rsd, found: map<Name, Version>, scaled: set<Name>)
      reads this
    {
      && report.p.mode == Rollout && Describes(report, spec, Some(spec.desired))
      && Readied(spec, found, scaled, report.view.versions, report.view.hpas)
      && (report.failed == {} ==> AutoscalersMatch(report.p, report.view, spec.desired, hpas))
    }

    lemma CleanedFrom(report: Report, spec: Rsd, found: map<Name, Version>, scaled: set<Name>)
      requires report.p.mode == Rollout && Describes(report, spec, Some(spec.desired))
      requires Readied(spec, found, scaled, report.view.versions, report.view.hpas)
      requires report.failed == {} ==> AutoscalersMatch(report.p, report.view, spec.desired, hpas)
      ensures CleanedAfter(report, spec, found, scaled)
    {
    }

    // A pass that found the pods not ready, after its cleanup went through or was stopped.
    lemma NotReadyPass(before: seq<Label>, planned: seq<Label>, spec: Rsd)
      requires Valid() && planned != [] && |before| + 1 < |planned|
      requires Exec(origin, before).phase.Idle? && Exec(origin, before).rsd.deletedAt.None?
      requires Continues(before + [Label.Begin(false)], planned) && UnreadyAt(origin, planned, |planned| - 1, spec)
      requires Continues(planned, run) || Stops(planned, run)
      ensures UnreadyAt(origin, run, |planned| - 1, spec) && NeverRegisters(origin, run, |before|)
    {
      var q := |planned| - 1;
      StartsInitial();
      GoesOnFrom(before, planned);
      FoundStays(origin, planned, run, q, spec);
      hide *;
      UnreadyPass(origin, run, |before|, q, spec);
    }

    lemma GoesOnFrom(before: seq<Label>, planned: seq<Label>)
      requires planned != [] && |before| + 1 < |planned|
      requires Exec(origin, before).phase.Idle? && Exec(origin, before).rsd.deletedAt.None?
      requires Continues(before + [Label.Begin(false)], planned)
      requires Continues(planned, run) || Stops(planned, run)
      ensures planned <= run && run[..|planned|] == planned && |before| < |planned| - 1 < |run|
      ensures PassFrom(origin, planned, |before|) && forall i :: |before| < i < |run| ==> !run[i].Begin?
    {
      hide Exec;
      assert planned[..|before|] == before && planned <= run;
      assert forall i :: |before| < i < |planned| ==> run[i] == planned[i];
    }

    lemma PlannedFound(before: seq<Label>, planned: seq<Label>, ready: bool, spec: Rsd)
      requires Valid() && |before| + 1 < |planned|
      requires Exec(origin, before).phase.Idle? && Exec(origin, before).rsd.deletedAt.None?
      requires Continues(before + [Label.Begin(false)], planned)
      requires if ready then RoutedAt(origin, planned, |planned| - 1, spec) else UnreadyAt(origin, planned, |planned| - 1, spec)
      requires Continues(planned, run) || Stops(planned, run)
      ensures ready ==> SawRouted(origin, run, |before|, spec) && !SawUnready(origin, run, |before|, spec)
      ensures !ready ==> SawUnready(origin, run, |before|, spec) && NeverRegisters(origin, run, |before|)
    {
      hide Exec, Initial, Valid, State, Continues, Stops, RoutedAt, UnreadyAt, NeverRegisters;
      GoesOnFrom(before, planned);
      FoundStays(origin, planned, run, |planned| - 1, spec);
      if ready {
        RoutedIsNotUnready(origin, run, |before|, |planned| - 1, spec);
      } else {
        NotReadyPass(before, planned, spec);
      }
    }

    // One pass over a live RestateDeployment. The run grows by one beginning, and by a crash
    // exactly if a call failed. A pass that ends before its cleanup touches the current version
    // alone, and one that finds a foreign deployment writes nothing to Restate. A pass that
    // succeeds has seen Restate route to the current version; one that answers that the pods are
    // not ready has registered nothing.
    method Reconcile() returns (result: PassResult, ghost report: Option<Report>)
      requires Valid() && phase == Idle && rsd.deletedAt.None?
      modifies this
      ensures Valid() && phase == Idle
      ensures
        if result.Failed? || result == NotReady(false) then Stops(old(run) + [Label.Begin(false)], run)
        else Continues(old(run) + [Label.Begin(false)], run) && IsCurrent(old(rsd), versions, hpas)
      ensures result.UpToDate? || result.ForeignDeployment? || result.NotLatest? ==>
        && EndsEarly(result, old(rsd))
        && OnlyRegisters(origin, run, |old(run)|, old(rsd).desired)
        && SameElsewhere(old(State()), State(), old(rsd).desired)
        && Readied(old(rsd), old(versions), old(hpas), versions, hpas)
        && NeverCleans(origin, run, |old(run)|)
      ensures result.UpToDate? || result.ForeignDeployment? ==> OnlyOthersMoveRestate(origin, run, |old(run)|)
      ensures result.CleanedUp? ==> SawRouted(origin, run, |old(run)|, old(rsd))
      ensures result.NotReady? <==> SawUnready(origin, run, |old(run)|, old(rsd))
      ensures result.NotReady? ==> NeverRegisters(origin, run, |old(run)|)
      ensures result.CleanedUp? || result == NotReady(true) ==>
        && run != [] && LastPhase().Cleaning?
        && report.Some? && CleanedAfter(report.value, old(rsd), old(versions), old(hpas))
        && (result.CleanedUp? ==> result.outcome == report.value.outcome)
    {
      hide *;
      var spec := rsd;
      report := None;
      ghost var before := run;
      IsItsRun();
      Begin(false);
      ghost var begun := run;
      var preparation := Prepare(spec);
      if preparation == Ends(Failed) {
        StoppedUnseen(before, spec);
        return Failed, None;
      }
      ghost var planned := run;
      ReadiedIsCurrent(spec, old(versions), old(hpas), versions, hpas);
      if preparation.Ends? {
        EndsWith(preparation.result, spec);
        PassEnded(before, preparation.result, spec);
        return preparation.result, None;
      }
      var outcome, described := CleanRollout(spec, preparation.snapshot);
      PlannedFound(before, planned, preparation.ready, spec);
      if outcome.None? {
        StopsOn(begun, planned, run);
        return if preparation.ready then Failed else NotReady(false), None;
      }
      ContinuesOn(begun, planned, run);
      CleanedFrom(described, spec, old(versions), old(hpas));
      report := Some(described);
      return if preparation.ready then CleanedUp(outcome.value) else NotReady(true), report;
    }

    // One pass over a RestateDeployment being deleted. It releases the finalizer exactly when
    // nothing is left, and otherwise says when to come back.
    method Finalize(clusterGone: bool) returns (result: DeletionResult, ghost report: Option<Report>)
      requires Valid() && phase == Idle && rsd.deletedAt.Some?
      modifies this
      ensures Valid() && (result.DeletionFailed? ==> phase == Idle)
      ensures
        if result.DeletionFailed? then Stops(old(run) + [Label.Begin(clusterGone)], run)
        else Continues(old(run) + [Label.Begin(clusterGone)], run)
      ensures result.ClusterGone? <==> clusterGone
      ensures result.ClusterGone? ==> versions == old(versions) && server == old(server)
      ensures result.ReleasedAll? || result.InUse? || result.Draining? ==>
        && report.Some? && Describes(report.value, old(rsd), None)
        && report.value.p.mode.IsDeleting() && report.value.view.versions == old(versions)
        && report.value.view.hpas == old(hpas)
      ensures result.ReleasedAll? ==>
        && versions == map[] && (forall n :: Own(n) in server.endpoints ==> n in lost)
        && report.value.outcome.blocking == [] && result.abandoned == report.value.outcome.abandoned
      ensures result.InUse? ==>
        && phase == Idle && result.blocking != [] && result.blocking == report.value.outcome.blocking
        && result.overdue == DrainOverdue(old(rsd), clock)
        && result.requeueAfter ==
           BlockedDeletionRequeue(BlockedFor(old(rsd), clock), UntilDrainDeadline(old(rsd), clock))
      ensures result.Draining? ==>
        && phase == Idle && report.value.outcome.blocking == []
        && IsSoonest(Some(result.nextRemoval), report.value.p, report.value.view, report.value.order, versions)
        && result.requeueAfter == DrainingRequeue(old(rsd), result.nextRemoval, clock, clock)
    {
      var spec := rsd;
      report := None;
      Begin(clusterGone);
      if clusterGone { return ClusterGone, None; }
      hide *;
      ghost var begun := run;
      var ok, mode, snapshot, _, _ := Derive(spec);
      if !ok { return DeletionFailed, None; }
      ghost var planned := run;
      var outcome, described := Clean(spec, mode, snapshot, None);
      if outcome.None? {
        StopsOn(begun, planned, run);
        return DeletionFailed, None;
      }
      ghost var cleaned := run;
      ContinuesOn(begun, planned, cleaned);
      report := Some(described);
      DescribesCounts(described, spec);
      result := Conclude(spec, outcome.value, described);
      ContinuesOn(begun, cleaned, run);
    }

    // Blocked, waiting out a drain delay, or done.
    method Conclude(spec: Rsd, outcome: CleanupOutcome, ghost report: Report) returns (result: DeletionResult)
      requires Valid() && Describes(report, spec, None)
      requires outcome.blocking == [] ==>
        IsSoonest(outcome.nextRemoval, report.p, report.view, report.order, versions)
      requires phase == if outcome.blocking == [] && outcome.nextRemoval.None? then Released(false) else Idle
      modifies this
      ensures Valid() && Continues(old(run), run) && phase == old(phase) && Describes(report, spec, None)
      ensures !result.DeletionFailed? && !result.ClusterGone?
      ensures result.ReleasedAll? ==>
        && versions == map[] && outcome.blocking == [] && result.abandoned == outcome.abandoned
        && forall n :: Own(n) in server.endpoints ==> n in lost
      ensures result.InUse? ==>
        && phase == Idle && result.blocking != [] && result.blocking == outcome.blocking
        && result.overdue == DrainOverdue(spec, clock)
        && result.requeueAfter == BlockedDeletionRequeue(BlockedFor(spec, clock), UntilDrainDeadline(spec, clock))
      ensures result.Draining? ==>
        && phase == Idle && outcome.blocking == []
        && IsSoonest(Some(result.nextRemoval), report.p, report.view, report.order, versions)
        && result.requeueAfter == DrainingRequeue(spec, result.nextRemoval, clock, clock)
    {
      hide *;
      if outcome.blocking != [] {
        PauseAfter(report, spec);
        result := InUse(outcome.blocking, DrainOverdue(spec, clock),
          BlockedDeletionRequeue(BlockedFor(spec, clock), UntilDrainDeadline(spec, clock)));
      } else if outcome.nextRemoval.Some? {
        PauseAfter(report, spec);
        var next := outcome.nextRemoval.value;
        result := Draining(next, DrainingRequeue(spec, next, clock, clock));
      } else {
        NothingLeft();
        ContinuesItself(run);
        result := ReleasedAll(outcome.abandoned);
      }
    }

    // What a cleanup left behind stays put while the rest of the world moves.
    method PauseAfter(ghost report: Report, spec: Rsd)
      requires Valid() && Describes(report, spec, None)
      modifies `rsd, `server, `clock, `run
      ensures Valid() && Continues(old(run), run) && old(clock) <= clock && Describes(report, spec, None)
    {
      hide Exec, Initial, Continues, Progress, Reports, IsNewestFirst;
      Pause();
    }

    lemma DescribesCounts(report: Report, spec: Rsd)
      ensures Describes(report, spec, None) && report.outcome.blocking == [] ==>
        IsSoonest(report.outcome.nextRemoval, report.p, report.view, report.order, versions)
    {
    }

    lemma NothingLeft()
      requires Valid() && phase == Released(false)
      ensures versions == map[] && forall n :: Own(n) in server.endpoints ==> n in lost
    {
      FinalizerReleaseIsComplete(origin, run);
    }

    // The mode is derived again after the usage query, which may have outlasted the deadline; a
    // pass that still waits has an answer that counts unpinned work.
    method Derive(spec: Rsd)
      returns (ok: bool, mode: CleanupMode, snapshot: UsageMap, ghost asked: nat, ghost queryMode: CleanupMode)
      requires Valid() && phase == QueryingForDeletion(spec) && spec.deletedAt.Some?
      modifies this
      ensures Valid() && old(clock) <= clock && versions == old(versions) && hpas == old(hpas) && mode.IsDeleting()
      ensures !ok ==> phase == Idle && Stops(old(run), run)
      ensures ok ==>
        && Continues(old(run), run) && phase == Planning(spec, mode, snapshot, None) && mode == ModeFor(spec, clock)
        && |old(run)| <= asked && QueriedAt(origin, run, asked, spec, queryMode, snapshot)
        && (mode.Deleting? ==> queryMode.Deleting?)
    {
      hide Exec, Initial, UsageOf, OpStep, LosesRegistration;
      Pause();
      ok, asked, queryMode := *, |run|, ModeFor(spec, clock);
      if !ok {
        mode, snapshot := Deleting, map[];
        Stop();
        return;
      }
      ghost var w, before := State(), run;
      var modeNow := ModeFor(spec, clock);
      snapshot := UsageOf(server, modeNow);
      DeletionMoves(w);
      Move(Anything, Deriving(spec, modeNow, snapshot), disturbed);
      Pause();
      mode := ModeFor(spec, clock);
      DeletionMoves(State());
      Move(Anything, Planning(spec, mode, snapshot, None), disturbed);
      assert run[..asked] == before;
    }
  }
}
