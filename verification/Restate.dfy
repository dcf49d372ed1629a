// The Restate server as the operator observes it: registered deployments, the route each
// service takes, and invocations, which start unpinned, pin to their service's current route
// and eventually complete.
module Restate {
  import opened Base
  import opened Usage

  datatype Invocation = Invocation(service: Service, pinned: Option<DeploymentId>, completed: bool)

  // An address a deployment is registered at: one of this operator's versions, or anything else.
  datatype Endpoint = Own(name: Name) | Foreign(k: nat)

  datatype Server = Server(
    deployments: map<DeploymentId, set<Service>>,
    endpoints: map<Endpoint, DeploymentId>,
    routes: map<Service, DeploymentId>,
    invocations: seq<Invocation>,
    // every id ever issued, with the endpoint it was issued for; ids are never reused
    minted: map<DeploymentId, Endpoint>)

  ghost predicate Consistent(s: Server) {
    && (forall e :: e in s.endpoints ==>
          && s.endpoints[e] in s.deployments
          && s.endpoints[e] in s.minted
          && s.minted[s.endpoints[e]] == e)
    && (forall id :: id in s.deployments ==>
          && id in s.minted
          && s.minted[id] in s.endpoints
          && s.endpoints[s.minted[id]] == id)
    && (forall v :: v in s.routes ==>
          && s.routes[v] in s.deployments
          && v in s.deployments[s.routes[v]])
  }

  // Route exactly `services` to `id`, taking them from whoever held them.
  function Take(s: Server, id: DeploymentId, services: set<Service>): Server {
    s.(
      deployments := s.deployments[id := services],
      routes := (map v | v in s.routes && s.routes[v] != id :: s.routes[v]) + (map v | v in services :: id))
  }

  // `POST /deployments`. An unknown address mints an id; a known one keeps its id, and only
  // `force` moves the services.
  function Register(s: Server, e: Endpoint, services: set<Service>, force: bool, newId: DeploymentId)
    : (Server, DeploymentId)
  {
    if e in s.endpoints then
      (if force then Take(s, s.endpoints[e], services) else s, s.endpoints[e])
    else
      (Take(s.(endpoints := s.endpoints[e := newId], minted := s.minted[newId := e]), newId, services), newId)
  }

  // `DELETE /deployments/{id}?force=true`. An unknown id is the tolerated 404.
  function Deregister(s: Server, id: DeploymentId): Server {
    s.(
      deployments := s.deployments - {id},
      endpoints := map e | e in s.endpoints && s.endpoints[e] != id :: s.endpoints[e],
      routes := map v | v in s.routes && s.routes[v] != id :: s.routes[v])
  }

  // Everything that happens to Restate without the operator.
  datatype EnvAction =
    | Start(service: Service)
    | Pin(i: nat)
    | Complete(i: nat)
    | ForeignRegister(k: nat, services: set<Service>, force: bool, newId: DeploymentId)
    | RemoveOutOfBand(id: DeploymentId)

  function Environment(s: Server, a: EnvAction): Server {
    match a
    case Start(service) =>
      s.(invocations := s.invocations + [Invocation(service, None, false)])
    case Pin(i) =>
      if i < |s.invocations| && !s.invocations[i].completed && s.invocations[i].pinned.None?
         && s.invocations[i].service in s.routes
      then s.(invocations := s.invocations[i := s.invocations[i].(pinned := Some(s.routes[s.invocations[i].service]))])
      else s
    case Complete(i) =>
      if i < |s.invocations|
      then s.(invocations := s.invocations[i := s.invocations[i].(completed := true)])
      else s
    case ForeignRegister(k, services, force, newId) =>
      if newId in s.minted then s else Register(s, Foreign(k), services, force, newId).0
    case RemoveOutOfBand(id) =>
      Deregister(s, id)
  }

  predicate IsLatest(s: Server, id: DeploymentId) {
    exists v :: v in s.routes && s.routes[v] == id
  }

  predicate UnfinishedOn(inv: Invocation, id: DeploymentId) {
    inv.pinned == Some(id) && !inv.completed
  }

  // A registered deployment that a service routes to, or that unfinished work is pinned to.
  predicate Needed(s: Server, id: DeploymentId) {
    && id in s.deployments
    && (IsLatest(s, id) || exists i :: 0 <= i < |s.invocations| && UnfinishedOn(s.invocations[i], id))
  }

  function PinnedCount(invocations: seq<Invocation>, id: DeploymentId): nat {
    if invocations == [] then 0
    else (if UnfinishedOn(invocations[0], id) then 1 else 0) + PinnedCount(invocations[1..], id)
  }

  // Unpinned work is attributed through the route its service currently takes.
  function UnpinnedCount(invocations: seq<Invocation>, routes: map<Service, DeploymentId>, id: DeploymentId): nat {
    if invocations == [] then 0
    else
      (if invocations[0].pinned.None? && !invocations[0].completed
          && invocations[0].service in routes && routes[invocations[0].service] == id then 1 else 0)
      + UnpinnedCount(invocations[1..], routes, id)
  }

  // The usage map a pass in `mode` works from.
  function UsageOf(s: Server, mode: CleanupMode): UsageMap {
    map id | id in s.deployments ::
      DeploymentUsage(
        IsLatest(s, id),
        PinnedCount(s.invocations, id),
        if mode.NeedsUnpinnedCount() then UnpinnedCount(s.invocations, s.routes, id) else 0)
  }

  lemma {:induction false} PinnedCountZero(invocations: seq<Invocation>, id: DeploymentId)
    ensures PinnedCount(invocations, id) == 0 <==>
            forall i :: 0 <= i < |invocations| ==> !UnfinishedOn(invocations[i], id)
  {
    if invocations != [] {
      PinnedCountZero(invocations[1..], id);
      assert forall i :: 1 <= i < |invocations| ==> invocations[i] == invocations[1..][i - 1];
      assert forall i :: 0 <= i < |invocations[1..]| ==> invocations[1..][i] == invocations[i + 1];
    }
  }

  // Unpinned work counts for a deployment only through a route, which makes it latest.
  lemma {:induction false} UnpinnedMeansLatest(s: Server, invocations: seq<Invocation>, id: DeploymentId)
    requires UnpinnedCount(invocations, s.routes, id) > 0
    ensures IsLatest(s, id)
  {
    if UnpinnedCount(invocations[1..], s.routes, id) > 0 {
      UnpinnedMeansLatest(s, invocations[1..], id);
    } else {
      assert s.routes[invocations[0].service] == id;
    }
  }

  // The rollout notion of an active deployment is exactly being needed, whichever query was run.
  lemma ActiveMeansNeeded(s: Server, id: DeploymentId, mode: CleanupMode)
    requires id in s.deployments
    ensures UsageOf(s, mode)[id].IsActive(Rollout) <==> Needed(s, id)
    ensures (UsageOf(s, mode)[id].latestForService || UsageOf(s, mode)[id].pinned > 0) <==> Needed(s, id)
  {
    PinnedCountZero(s.invocations, id);
    if UnpinnedCount(s.invocations, s.routes, id) > 0 {
      UnpinnedMeansLatest(s, s.invocations, id);
    }
  }

  lemma RegisterKeepsConsistency(s: Server, e: Endpoint, services: set<Service>, force: bool, newId: DeploymentId)
    requires Consistent(s) && (e in s.endpoints || newId !in s.minted)
    ensures Consistent(Register(s, e, services, force, newId).0)
  {
  }

  lemma DeregisterKeepsConsistency(s: Server, id: DeploymentId)
    requires Consistent(s)
    ensures Consistent(Deregister(s, id))
  {
  }

  lemma EnvironmentKeepsConsistency(s: Server, a: EnvAction)
    requires Consistent(s)
    ensures Consistent(Environment(s, a))
  {
    match a
    case ForeignRegister(k, services, force, newId) =>
      if newId !in s.minted {
        RegisterKeepsConsistency(s, Foreign(k), services, force, newId);
      }
    case RemoveOutOfBand(id) => DeregisterKeepsConsistency(s, id);
    case _ =>
  }

  // Nothing outside the operator registers one of its endpoints or reuses an id.
  lemma EnvironmentKeepsOwnership(s: Server, a: EnvAction)
    requires Consistent(s)
    ensures forall n :: Own(n) in Environment(s, a).endpoints ==>
              Own(n) in s.endpoints && Environment(s, a).endpoints[Own(n)] == s.endpoints[Own(n)]
    ensures forall id :: id in s.minted ==> id in Environment(s, a).minted && Environment(s, a).minted[id] == s.minted[id]
  {
  }

  // An id that was issued and is no longer registered.
  predicate Removed(s: Server, id: DeploymentId) {
    id in s.minted && id !in s.deployments
  }

  lemma RegisterRevivesNothing(
      s: Server, e: Endpoint, services: set<Service>, force: bool, newId: DeploymentId, id: DeploymentId)
    requires Consistent(s) && Removed(s, id) && (e in s.endpoints || newId !in s.minted)
    ensures Removed(Register(s, e, services, force, newId).0, id)
  {
  }

  lemma EnvironmentRevivesNothing(s: Server, a: EnvAction, id: DeploymentId)
    requires Consistent(s) && Removed(s, id)
    ensures Removed(Environment(s, a), id)
  {
    match a
    case ForeignRegister(k, services, force, newId) =>
      if newId !in s.minted {
        RegisterRevivesNothing(s, Foreign(k), services, force, newId, id);
      }
    case _ =>
  }

  // Not latest and nothing pinned is stable: work reaches a deployment only through a route,
  // and nobody but the operator can route to one of its endpoints.
  lemma QuietIsStable(s: Server, a: EnvAction, n: Name)
    requires Consistent(s) && Own(n) in s.endpoints && !Needed(s, s.endpoints[Own(n)])
    ensures !Needed(Environment(s, a), s.endpoints[Own(n)])
  {
    var id := s.endpoints[Own(n)];
    var t := Environment(s, a);
    assert !IsLatest(s, id);
    match a
    case ForeignRegister(k, services, force, newId) =>
      if newId !in s.minted {
        assert forall v :: v in t.routes ==> t.routes[v] != id;
        assert t.invocations == s.invocations;
      }
    case RemoveOutOfBand(_) =>
      assert forall v :: v in t.routes ==> v in s.routes && t.routes[v] == s.routes[v];
      assert t.invocations == s.invocations;
    case Start(_) =>
      assert forall i :: 0 <= i < |t.invocations| && UnfinishedOn(t.invocations[i], id) ==>
          i < |s.invocations| && UnfinishedOn(s.invocations[i], id);
    case Pin(j) =>
      assert forall i :: 0 <= i < |t.invocations| && UnfinishedOn(t.invocations[i], id) ==>
          UnfinishedOn(s.invocations[i], id);
    case Complete(j) =>
      assert forall i :: 0 <= i < |t.invocations| && UnfinishedOn(t.invocations[i], id) ==>
          UnfinishedOn(s.invocations[i], id);
  }

  // Registering one own endpoint never makes a different quiet one needed.
  lemma RegisterLeavesOthersQuiet(
      s: Server, cur: Name, services: set<Service>, force: bool, newId: DeploymentId, n: Name)
    requires Consistent(s) && (Own(cur) in s.endpoints || newId !in s.minted)
    requires n != cur && Own(n) in s.endpoints && !Needed(s, s.endpoints[Own(n)])
    ensures !Needed(Register(s, Own(cur), services, force, newId).0, s.endpoints[Own(n)])
  {
    var id := s.endpoints[Own(n)];
    var t := Register(s, Own(cur), services, force, newId).0;
    assert !IsLatest(s, id);
    assert forall v :: v in t.routes && t.routes[v] == id ==> v in s.routes && s.routes[v] == id;
    assert t.invocations == s.invocations;
  }
}
