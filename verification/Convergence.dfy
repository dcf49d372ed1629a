// Registration converges: left alone with pods ready, at most two passes end with every service
// routed to the current version, exactly when one of ours holds the services or nobody has ever
// registered this endpoint.
module Convergence {
  import opened Base
  import opened Usage
  import opened Policy
  import opened Restate
  import opened Registration
  import opened Cleanup
  import opened CleanupReport
  import opened Lifecycle
  import opened LifecycleCleaning

  datatype RoundVerdict = Untouched | Confirmed | NotLatest | Refused

  // What one pass does to Restate and to the recorded id of the current version.
  datatype Round = Round(server: Server, recorded: Option<DeploymentId>, verdict: RoundVerdict)

  // The ids recorded on all versions: the siblings' and the current version's own.
  function Owned(siblings: seq<DeploymentId>, recorded: Option<DeploymentId>): seq<DeploymentId> {
    siblings + if recorded.Some? then [recorded.value] else []
  }

  // The registration part of one uninterrupted pass: plan, write, record, confirm.
  function RegisterRound(
      s: Server, n: Name, services: set<Service>,
      recorded: Option<DeploymentId>, siblings: seq<DeploymentId>, newId: DeploymentId): Round
  {
    var action := PlanRegistration(recorded, UsageOf(s, Rollout), Owned(siblings, recorded));
    match action
    case Conflict => Round(s, recorded, Refused)
    case AlreadyLatest(_) => Round(s, recorded, Untouched)
    case _ =>
      var (t, id) := Restate.Register(s, Own(n), services, action.Overwrites(), newId);
      Round(t, Some(id), if ConfirmedLatest(t, id, services) then Confirmed else NotLatest)
  }

  // The lifecycle's registering phases do exactly that.
  lemma PassPerformsRound(w: World, siblings: seq<DeploymentId>, newId: DeploymentId)
    requires w.phase.Querying? && w.phase.rsd.desired in w.versions
    requires ListsOwned(Owned(siblings, Recorded(w, w.phase.rsd.desired)), w.versions)
    requires Own(w.phase.rsd.desired) in w.server.endpoints || newId !in w.server.minted
    ensures
      var n := w.phase.rsd.desired;
      var c := Choice(true, newId, Owned(siblings, Recorded(w, n)), [], true);
      var round := RegisterRound(w.server, n, Services(w, n), Recorded(w, n), siblings, newId);
      var queried := OpStep(w, c);
      match round.verdict
      case Refused => queried == w.(phase := Idle)
      case Untouched => queried.phase.Planning? && queried == w.(phase := queried.phase)
      case _ =>
        var confirming := OpStep(OpStep(queried, c), c);
        && confirming.server == round.server
        && Recorded(confirming, n) == round.recorded
        && OpStep(confirming, c).server == round.server
        && (OpStep(confirming, c).phase.Planning? <==> round.verdict.Confirmed?)
  {
    var n := w.phase.rsd.desired;
    var owned := Owned(siblings, Recorded(w, n));
    var c := Choice(true, newId, owned, [], true);
    var snapshot := UsageOf(w.server, Rollout);
    PlanStep(w, c);
    var action := PlanRegistration(Recorded(w, n), snapshot, owned);
    if action.Register? || action.Promote? {
      RegisterRecordConfirm(w.(phase := Registering(w.phase.rsd, snapshot, action.Overwrites())), c);
    }
  }

  lemma PlanStep(w: World, c: Choice)
    requires w.phase.Querying? && ListsOwned(c.owned, w.versions)
    ensures
      var snapshot := UsageOf(w.server, Rollout);
      match PlanRegistration(Recorded(w, w.phase.rsd.desired), snapshot, c.owned)
      case Conflict => OpStep(w, c) == w.(phase := Idle)
      case AlreadyLatest(_) => OpStep(w, c) == w.(phase := Planning(w.phase.rsd, Rollout, snapshot, Some(w.phase.rsd.desired)))
      case action => c.ready ==> OpStep(w, c) == w.(phase := Registering(w.phase.rsd, snapshot, action.Overwrites()))
  {
  }

  lemma RegisterRecordConfirm(w: World, c: Choice)
    requires w.phase.Registering? && w.phase.rsd.desired in w.versions
    requires Own(w.phase.rsd.desired) in w.server.endpoints || c.newId !in w.server.minted
    ensures
      var n := w.phase.rsd.desired;
      var (t, id) := Restate.Register(w.server, Own(n), Services(w, n), w.phase.force, c.newId);
      var confirming := OpStep(OpStep(w, c), c);
      && confirming.server == t && Recorded(confirming, n) == Some(id)
      && OpStep(confirming, c).server == t
      && (OpStep(confirming, c).phase.Planning? <==> ConfirmedLatest(t, id, Services(w, n)))
  {
    var n := w.phase.rsd.desired;
    var (t, id) := Restate.Register(w.server, Own(n), Services(w, n), w.phase.force, c.newId);
    var recording := OpStep(w, c);
    assert recording == w.(server := t, phase := Recording(w.phase.rsd, w.phase.snapshot, id));
    var confirming := OpStep(recording, c);
    assert confirming.phase == Confirming(w.phase.rsd, w.phase.snapshot, id) && confirming.server == t;
  }

  // Every endpoint of ours exposes the same services, so they all route to the same deployment
  // or none of them is routed at all.
  ghost predicate SameServices(s: Server, services: set<Service>)
    requires Consistent(s)
  {
    && services != {}
    && (forall n :: Own(n) in s.endpoints ==> s.deployments[s.endpoints[Own(n)]] == services)
    && (forall u, v :: u in services && v in services && u in s.routes ==> v in s.routes && s.routes[u] == s.routes[v])
  }

  // The recorded ids, ours and our siblings', were minted for the endpoints they are recorded on.
  ghost predicate RecordsAreOwn(s: Server, n: Name, recorded: Option<DeploymentId>, siblings: seq<DeploymentId>) {
    && (recorded.Some? ==> recorded.value in s.minted && s.minted[recorded.value] == Own(n))
    && (forall id :: id in siblings ==> id in s.minted && s.minted[id].Own? && s.minted[id] != Own(n))
  }

  ghost predicate Start(
      s: Server, n: Name, services: set<Service>, recorded: Option<DeploymentId>, siblings: seq<DeploymentId>) {
    Consistent(s) && SameServices(s, services) && RecordsAreOwn(s, n, recorded, siblings)
  }

  // Our endpoint is not registered, or holds the services, or a recorded sibling does.
  ghost predicate Winnable(s: Server, n: Name, services: set<Service>, siblings: seq<DeploymentId>) {
    Own(n) in s.endpoints ==>
      forall v :: v in services ==>
        v in s.routes && (s.routes[v] == s.endpoints[Own(n)] || s.routes[v] in siblings)
  }

  ghost predicate Routed(s: Server, n: Name, services: set<Service>, recorded: Option<DeploymentId>) {
    && Own(n) in s.endpoints
    && recorded == Some(s.endpoints[Own(n)])
    && ConfirmedLatest(s, s.endpoints[Own(n)], services)
  }

  // A registered endpoint of ours that is latest for anything holds all the services.
  lemma LatestMeansHolding(s: Server, services: set<Service>, n: Name)
    requires Consistent(s) && SameServices(s, services) && Own(n) in s.endpoints
    ensures IsLatest(s, s.endpoints[Own(n)]) <==> ConfirmedLatest(s, s.endpoints[Own(n)], services)
  {
    var id := s.endpoints[Own(n)];
    var u :| u in services;
    if IsLatest(s, id) {
      var v :| v in s.routes && s.routes[v] == id;
      assert v in services;
    }
    if ConfirmedLatest(s, id, services) {
      assert u in s.routes && s.routes[u] == id;
    }
  }

  // Registering, with or without force, leaves invocations and known endpoints alone.
  lemma RegisterKeepsWork(s: Server, n: Name, services: set<Service>, force: bool, newId: DeploymentId)
    requires Consistent(s) && (Own(n) in s.endpoints || newId !in s.minted)
    ensures
      var (t, id) := Restate.Register(s, Own(n), services, force, newId);
      && t.invocations == s.invocations
      && Own(n) in t.endpoints && t.endpoints[Own(n)] == id
      && (Own(n) in s.endpoints ==> id == s.endpoints[Own(n)] && (!force ==> t == s))
      && (force || Own(n) !in s.endpoints ==> ConfirmedLatest(t, id, services))
  {
  }

  // With the id on record, a round leaves a held route alone, promotes over a sibling, or refuses.
  lemma RecordedRound(s: Server, n: Name, services: set<Service>, siblings: seq<DeploymentId>, newId: DeploymentId)
    requires Own(n) in s.endpoints && Start(s, n, services, Some(s.endpoints[Own(n)]), siblings)
    ensures
      var id := s.endpoints[Own(n)];
      var r := RegisterRound(s, n, services, Some(id), siblings, newId);
      && r.server.invocations == s.invocations
      && Own(n) in r.server.endpoints && r.server.endpoints[Own(n)] == id
      && (if Winnable(s, n, services, siblings)
          then (r.verdict.Confirmed? || r.verdict.Untouched?) && Routed(r.server, n, services, r.recorded)
          else r.verdict.Refused? && r.server == s && r.recorded == Some(id))
  {
    var id := s.endpoints[Own(n)];
    var usage := UsageOf(s, Rollout);
    var owned := Owned(siblings, Some(id));
    LatestMeansHolding(s, services, n);
    var u :| u in services;
    if !IsLatest(s, id) {
      var holder := FirstHolder(owned, id, usage);
      if holder.Some? {
        var m := s.minted[holder.value].name;
        assert holder.value in siblings;
        assert s.endpoints[Own(m)] == holder.value;
        LatestMeansHolding(s, services, m);
        RegisterKeepsWork(s, n, services, true, newId);
        assert Winnable(s, n, services, siblings);
      } else {
        forall m | m in siblings ensures !HoldsLatest(usage, m) {
          assert m in owned && m != id;
        }
      }
    }
  }

  // Without the id on record, a round registers; that wins only a fresh endpoint or one that
  // holds the services already, and the id is recorded either way.
  lemma UnrecordedRound(
      s: Server, n: Name, services: set<Service>, recorded: Option<DeploymentId>, siblings: seq<DeploymentId>,
      newId: DeploymentId)
    requires Start(s, n, services, recorded, siblings)
    requires Own(n) in s.endpoints ==> recorded != Some(s.endpoints[Own(n)])
    requires Own(n) in s.endpoints || newId !in s.minted
    ensures
      var r := RegisterRound(s, n, services, recorded, siblings, newId);
      && r.server.invocations == s.invocations
      && Own(n) in r.server.endpoints && r.recorded == Some(r.server.endpoints[Own(n)])
      && (r.verdict.Confirmed? <==> Routed(r.server, n, services, r.recorded))
      && (Own(n) in s.endpoints ==> r.server == s && (r.verdict.Confirmed? || r.verdict.NotLatest?))
      && (Own(n) !in s.endpoints ==> r.verdict.Confirmed?)
  {
    assert recorded.Some? ==> recorded.value !in s.deployments;
    RegisterKeepsWork(s, n, services, false, newId);
  }

  // Two uninterrupted passes route every service to the current version exactly when it can win
  // them. Pinned invocations and the id of an existing deployment are left alone.
  lemma RegistrationConverges(
      s: Server, n: Name, services: set<Service>, recorded: Option<DeploymentId>, siblings: seq<DeploymentId>,
      newId: DeploymentId, newerId: DeploymentId)
    requires Start(s, n, services, recorded, siblings) && newId !in s.minted
    ensures
      var r1 := RegisterRound(s, n, services, recorded, siblings, newId);
      var r2 := RegisterRound(r1.server, n, services, r1.recorded, siblings, newerId);
      && (Routed(r2.server, n, services, r2.recorded) <==> Winnable(s, n, services, siblings))
      && (Winnable(s, n, services, siblings) ==> r2.verdict.Untouched? || r2.verdict.Confirmed?)
      && (!Winnable(s, n, services, siblings) ==> r2.verdict.Refused? && r2.server == s)
      && r2.server.invocations == s.invocations
      && (Own(n) in s.endpoints ==> Own(n) in r2.server.endpoints && r2.server.endpoints[Own(n)] == s.endpoints[Own(n)])
  {
    var r1 := RegisterRound(s, n, services, recorded, siblings, newId);
    if Own(n) in s.endpoints && recorded == Some(s.endpoints[Own(n)]) {
      RecordedRound(s, n, services, siblings, newId);
      if Winnable(s, n, services, siblings) {
        OnceRoutedUntouched(r1.server, n, services, r1.recorded, siblings, newerId);
      }
    } else {
      UnrecordedRound(s, n, services, recorded, siblings, newId);
      if Own(n) in s.endpoints {
        assert Start(s, n, services, r1.recorded, siblings);
        RecordedRound(s, n, services, siblings, newerId);
      } else {
        OnceRoutedUntouched(r1.server, n, services, r1.recorded, siblings, newerId);
      }
      if Routed(s, n, services, r1.recorded) {
        assert Winnable(s, n, services, siblings);
      }
    }
  }

  // Once routed, every later pass leaves Restate alone.
  lemma OnceRoutedUntouched(
      s: Server, n: Name, services: set<Service>, recorded: Option<DeploymentId>, siblings: seq<DeploymentId>,
      newId: DeploymentId)
    requires services != {} && Routed(s, n, services, recorded) && recorded.value in s.deployments
    ensures RegisterRound(s, n, services, recorded, siblings, newId) == Round(s, recorded, Untouched)
  {
    var u :| u in services;
    assert s.routes[u] == recorded.value;
  }

  // Recording the id before confirming is what makes progress: without it, a version whose
  // endpoint Restate already knows plans the same plain registration for ever.
  lemma UnrecordedNeverConverges(
      s: Server, n: Name, services: set<Service>, siblings: seq<DeploymentId>, newId: DeploymentId)
    requires Consistent(s) && Own(n) in s.endpoints && !ConfirmedLatest(s, s.endpoints[Own(n)], services)
    ensures
      var r := RegisterRound(s, n, services, None, siblings, newId);
      r.server == s && r.verdict.NotLatest?
  {
  }

  // A cleanup pass that has no candidates plans nothing and completes.
  lemma EmptyCleanup(w: World, c: Choice)
    requires w.phase.Planning? && w.phase.mode.Rollout?
    requires c.order == [] && IsNewestFirst([], w.versions, w.phase.except)
    ensures OpStep(OpStep(w, c), c) == w.(phase := Idle)
  {
    PlanningStep(w, c);
    var job := PlannedJob(w, []);
    assert job.queue == [] && job.active == {} && !job.settled;
    var u := w.(phase := Cleaning(w.phase.rsd, w.phase.mode, job));
    assert OpStep(u, c) == w.(phase := Idle, disturbed := w.disturbed + {});
  }

  lemma NothingToReport(outcome: CleanupOutcome, p: Pass, view: View, versions: map<Name, Version>, now: Time)
    requires Reports(outcome, p, view, [], versions, now)
    ensures outcome == CleanupOutcome([], None, [])
  {
  }

  // The fast path refines the slow one: returning early leaves exactly the world the usage query,
  // the planner and the cleanup loop would have left, and the loop would have found no removal to
  // come back for either.
  lemma FastPathRefinesSlowPath(w: World, c: Choice)
    requires Consistent(w.server)
    requires w.phase.Checking? && FastPath(w, w.phase.rsd)
    requires ListsOwned(c.owned, w.versions) && c.order == []
    ensures
      var fast := OpStep(w, c);
      var slow := OpStep(OpStep(OpStep(w.(phase := Querying(w.phase.rsd)), c), c), c);
      fast == slow == w.(phase := Idle)
    ensures forall outcome, p, view, versions, now :: Reports(outcome, p, view, c.order, versions, now) ==>
      outcome == CleanupOutcome([], None, [])
  {
    forall outcome, p, view, versions, now | Reports(outcome, p, view, c.order, versions, now)
      ensures outcome == CleanupOutcome([], None, [])
    {
      NothingToReport(outcome, p, view, versions, now);
    }
    var rsd := w.phase.rsd;
    var snapshot := UsageOf(w.server, Rollout);
    var querying := w.(phase := Querying(rsd));
    assert w.versions[rsd.desired].id.value in snapshot;
    PlanStep(querying, c);
    var planning := querying.(phase := Planning(rsd, Rollout, snapshot, Some(rsd.desired)));
    EmptyCleanup(planning, c);
  }
}
