// Two controllers never fight over a service: once the desired version has been promoted, it is
// not promoted again, however a foreign controller registers its own endpoints in between.
module Promotion {
  import opened Base
  import opened Usage
  import opened Policy
  import opened Restate
  import opened Registration
  import opened Cleanup
  import opened Lifecycle
  import opened LifecycleInvariant
  import opened LifecycleCleaning
  import opened LifecycleSafety
  import opened LifecycleLost

  // What is registered at an own endpoint serves what was discovered there.
  ghost predicate ServedAsDiscovered(w: World) {
    forall n :: Own(n) in w.server.endpoints ==>
      w.server.endpoints[Own(n)] in w.server.deployments
      && w.server.deployments[w.server.endpoints[Own(n)]] == Services(w, n)
  }

  // The version the pass under way works towards, or the next pass would.
  ghost function Target(w: World): Name {
    match w.phase
    case Idle => w.rsd.desired
    case Released(_) => w.rsd.desired
    case _ => w.phase.rsd.desired
  }

  // The desired version serves whatever any other owned version serves, registered already or
  // about to be by the pass under way.
  ghost predicate Covers(w: World, desired: Name) {
    forall n :: Own(n) in w.server.endpoints || n == Target(w) ==> Services(w, n) <= Services(w, desired)
  }

  ghost predicate KeepsDesired(l: Label, desired: Name) {
    l.Edit? ==> l.rsd.desired == desired
  }

  // An owned version other than the desired one, with its registration on record.
  ghost predicate IsRival(w: World, desired: Name, n: Name) {
    n != desired && n !in w.lost && Own(n) in w.server.endpoints
  }

  ghost predicate OthersSuperseded(w: World, desired: Name) {
    forall n :: IsRival(w, desired, n) ==> !IsLatest(w.server, w.server.endpoints[Own(n)])
  }

  // A completed registration of `desired` with `force`.
  ghost predicate Forces(w: World, l: Label, desired: Name) {
    && l.Op? && w.phase.Registering? && w.phase.force && w.phase.rsd.desired == desired
    && (Own(desired) in w.server.endpoints || l.choice.newId !in w.server.minted)
  }

  // No rival serves anything, nothing works towards another version, and no forced registration
  // is under way.
  ghost predicate Settled(w: World, desired: Name) {
    Target(w) == desired && OthersSuperseded(w, desired) && (w.phase.Registering? ==> !w.phase.force)
  }

  ghost predicate Standing(w: World, desired: Name) {
    Inv(w) && ServedAsDiscovered(w) && Covers(w, desired) && w.rsd.desired == desired
  }

  // A step's effect on Restate is an environment step, a deregistration, a registration of the
  // desired version, or none.
  ghost predicate ServerStep(s: Server, t: Server, desired: Name, services: set<Service>) {
    || t == s
    || (exists a :: t == Environment(s, a))
    || (exists id :: t == Restate.Deregister(s, id))
    || (exists force, newId ::
          && (Own(desired) in s.endpoints || newId !in s.minted)
          && t == Restate.Register(s, Own(desired), services, force, newId).0)
  }

  lemma StepMovesServer(w: World, l: Label)
    ensures ServerStep(w.server, Step(w, l).server, Target(w), Services(w, Target(w)))
    ensures Step(w, l).discovery == w.discovery
  {
    if l.Op? {
      OperationMovesServer(w, l.choice);
    }
    hide OpStep, Environment, AdoptionWrites;
  }

  lemma OperationMovesServer(w: World, c: Choice)
    ensures ServerStep(w.server, OpStep(w, c).server, Target(w), Services(w, Target(w)))
    ensures OpStep(w, c).discovery == w.discovery
  {
    if w.phase.Registering?
       && (Own(w.phase.rsd.desired) in w.server.endpoints || c.newId !in w.server.minted) {
      RegisteringStep(w, c);
      hide OpStep, Restate.Register;
    } else if w.phase.Cleaning? && w.phase.job.queue != [] {
      CleaningStep(w, c);
      hide OpStep, Effect;
    } else if w.phase.Adopting? && w.phase.writes != [] {
      AdoptingStep(w, c);
      hide OpStep, Effect;
    } else {
      OtherOperationStays(w, c);
      StaysPut(w.server, Target(w), Services(w, Target(w)));
      hide OpStep, ServerStep;
    }
  }

  lemma OtherOperationStays(w: World, c: Choice)
    requires !(w.phase.Cleaning? && w.phase.job.queue != []) && !(w.phase.Adopting? && w.phase.writes != [])
    requires w.phase.Registering? ==>
      Own(w.phase.rsd.desired) !in w.server.endpoints && c.newId in w.server.minted
    ensures OpStep(w, c).server == w.server && OpStep(w, c).discovery == w.discovery
  {
    hide Restate.Register, UsageOf, PlanRegistration, ListsOwned, IsNewestFirst, JobFor, Effect;
  }

  lemma StaysPut(s: Server, desired: Name, services: set<Service>)
    ensures ServerStep(s, s, desired, services)
  {
  }

  // Nobody but the operator registers an own endpoint, moves a service to one, or changes what
  // one serves.
  ghost predicate OthersKeep(s: Server, t: Server, n: Name) {
    Own(n) in t.endpoints ==>
      && Own(n) in s.endpoints && t.endpoints[Own(n)] == s.endpoints[Own(n)]
      && t.endpoints[Own(n)] in t.deployments && s.endpoints[Own(n)] in s.deployments
      && t.deployments[t.endpoints[Own(n)]] == s.deployments[s.endpoints[Own(n)]]
      && (IsLatest(t, t.endpoints[Own(n)]) ==> IsLatest(s, s.endpoints[Own(n)]))
  }

  ghost predicate DesiredServes(s: Server, t: Server, desired: Name, services: set<Service>) {
    Own(desired) in t.endpoints ==>
      && t.endpoints[Own(desired)] in t.deployments
      && (t.deployments[t.endpoints[Own(desired)]] == services || OthersKeep(s, t, desired))
  }

  // Every route of `t` that leads to `id` was there before.
  lemma NoNewRoutes(s: Server, t: Server, id: DeploymentId)
    requires forall v :: v in t.routes && t.routes[v] == id ==> v in s.routes && s.routes[v] == id
    ensures IsLatest(t, id) ==> IsLatest(s, id)
  {
  }

  lemma EnvironmentLeavesOwn(s: Server, a: EnvAction, n: Name)
    requires Consistent(s)
    ensures OthersKeep(s, Environment(s, a), n)
  {
    var t := Environment(s, a);
    EnvironmentKeepsOwnership(s, a);
    if Own(n) in t.endpoints {
      NoNewRoutes(s, t, t.endpoints[Own(n)]);
    }
  }

  lemma DeregisterLeavesOwn(s: Server, id: DeploymentId, n: Name)
    requires Consistent(s)
    ensures OthersKeep(s, Restate.Deregister(s, id), n)
  {
    var t := Restate.Deregister(s, id);
    if Own(n) in t.endpoints {
      NoNewRoutes(s, t, t.endpoints[Own(n)]);
    }
  }

  lemma RegisterLeavesOwn(s: Server, desired: Name, services: set<Service>, force: bool, newId: DeploymentId, n: Name)
    requires Consistent(s) && (Own(desired) in s.endpoints || newId !in s.minted)
    ensures
      var t := Restate.Register(s, Own(desired), services, force, newId).0;
      && (n != desired ==> OthersKeep(s, t, n))
      && DesiredServes(s, t, desired, services)
  {
    var t := Restate.Register(s, Own(desired), services, force, newId).0;
    if n != desired && Own(n) in t.endpoints {
      NoNewRoutes(s, t, t.endpoints[Own(n)]);
    }
  }

  lemma ServerStepFacts(s: Server, t: Server, desired: Name, services: set<Service>, n: Name)
    requires Consistent(s) && ServerStep(s, t, desired, services)
    ensures n != desired ==> OthersKeep(s, t, n)
    ensures DesiredServes(s, t, desired, services)
  {
    if a :| t == Environment(s, a) {
      EnvironmentLeavesOwn(s, a, n);
      EnvironmentLeavesOwn(s, a, desired);
    } else if id :| t == Restate.Deregister(s, id) {
      DeregisterLeavesOwn(s, id, n);
      DeregisterLeavesOwn(s, id, desired);
    } else if t != s {
      var force, newId :|
        && (Own(desired) in s.endpoints || newId !in s.minted)
        && t == Restate.Register(s, Own(desired), services, force, newId).0;
      RegisterLeavesOwn(s, desired, services, force, newId, n);
    }
  }

  ghost predicate MovesTowards(w: World, u: World) {
    && u.discovery == w.discovery
    && (forall n :: n != Target(w) ==> OthersKeep(w.server, u.server, n))
    && (forall n :: n != Target(w) ==> (n in u.lost <==> n in w.lost))
    && DesiredServes(w.server, u.server, Target(w), Services(w, Target(w)))
  }

  lemma StepLosesTarget(w: World, l: Label)
    ensures forall n :: n != Target(w) ==> (n in Step(w, l).lost <==> n in w.lost)
  {
    if l.Op? && w.phase.Cleaning? && w.phase.job.queue != [] {
      CleaningStep(w, l.choice);
      hide Step, Effect;
    } else {
      hide Restate.Register, UsageOf, PlanRegistration, ListsOwned, IsNewestFirst, JobFor, AdoptionWrites, Effect;
    }
  }

  lemma StepMovesTowards(w: World, l: Label)
    requires Consistent(w.server)
    ensures MovesTowards(w, Step(w, l))
  {
    hide *;
    var u := Step(w, l);
    StepMovesServer(w, l);
    StepLosesTarget(w, l);
    ServerStepFacts(w.server, u.server, Target(w), Services(w, Target(w)), Target(w));
    forall n ensures n != Target(w) ==> OthersKeep(w.server, u.server, n) {
      ServerStepFacts(w.server, u.server, Target(w), Services(w, Target(w)), n);
    }
    MovesTowardsIs(w, u);
  }

  lemma MovesTowardsIs(w: World, u: World)
    requires u.discovery == w.discovery
    requires forall n :: n != Target(w) ==> OthersKeep(w.server, u.server, n)
    requires forall n :: n != Target(w) ==> (n in u.lost <==> n in w.lost)
    requires DesiredServes(w.server, u.server, Target(w), Services(w, Target(w)))
    ensures MovesTowards(w, u)
  {
  }

  // What such a move keeps.
  lemma ServingIsKept(w: World, u: World)
    requires MovesTowards(w, u) && ServedAsDiscovered(w)
    ensures ServedAsDiscovered(u)
  {
    forall n | Own(n) in u.server.endpoints
      ensures u.server.endpoints[Own(n)] in u.server.deployments
      ensures u.server.deployments[u.server.endpoints[Own(n)]] == Services(u, n)
    {
      assert n != Target(w) ==> OthersKeep(w.server, u.server, n);
    }
  }

  lemma CoverageIsKept(w: World, u: World, desired: Name)
    requires MovesTowards(w, u) && Covers(w, desired) && (Target(u) == Target(w) || Target(u) == desired)
    ensures Covers(u, desired)
  {
    forall n | Own(n) in u.server.endpoints || n == Target(u)
      ensures Services(u, n) <= Services(u, desired)
    {
      assert n != Target(w) ==> OthersKeep(w.server, u.server, n);
    }
  }

  lemma OthersStaySuperseded(w: World, u: World)
    requires MovesTowards(w, u) && OthersSuperseded(w, Target(w))
    ensures OthersSuperseded(u, Target(w))
  {
    forall n | IsRival(u, Target(w), n) ensures !IsLatest(u.server, u.server.endpoints[Own(n)]) {
      assert OthersKeep(w.server, u.server, n) && (n in u.lost <==> n in w.lost);
    }
  }

  // A pass under way keeps its target, and the next one takes the spec's.
  lemma StepKeepsTarget(w: World, l: Label, desired: Name)
    requires w.rsd.desired == desired && KeepsDesired(l, desired)
    ensures Step(w, l).rsd.desired == desired
    ensures Target(Step(w, l)) == Target(w) || Target(Step(w, l)) == desired
  {
    if l.Op? && w.phase.Cleaning? && w.phase.job.queue != [] {
      CleaningStep(w, l.choice);
      hide Step, Effect;
    } else {
      hide Restate.Register, UsageOf, PlanRegistration, ListsOwned, IsNewestFirst, JobFor, AdoptionWrites, Effect;
    }
  }

  lemma StepKeepsStanding(w: World, l: Label, desired: Name)
    requires Standing(w, desired) && KeepsDesired(l, desired)
    ensures Standing(Step(w, l), desired)
  {
    assert Consistent(w.server);
    hide Inv, Step, ServedAsDiscovered, Covers, MovesTowards, Consistent;
    StepKeepsInvariant(w, l);
    StepMovesTowards(w, l);
    ServingIsKept(w, Step(w, l));
    StepKeepsTarget(w, l, desired);
    CoverageIsKept(w, Step(w, l), desired);
  }

  // Whatever any run registered at an own endpoint serves what was discovered there.
  lemma {:induction false} RunServesAsDiscovered(w0: World, run: seq<Label>)
    requires Initial(w0)
    ensures Inv(Exec(w0, run)) && ServedAsDiscovered(Exec(w0, run))
    decreases |run|
  {
    if run == [] {
      InitialIsInvariant(w0);
    } else {
      var w, l := Exec(w0, run[..|run| - 1]), run[|run| - 1];
      RunServesAsDiscovered(w0, run[..|run| - 1]);
      assert Consistent(w.server);
      hide Inv, Step, ServedAsDiscovered, Covers, MovesTowards, Consistent;
      StepKeepsInvariant(w, l);
      StepMovesTowards(w, l);
      ServingIsKept(w, Step(w, l));
    }
  }

  // Every service a rival holds is one the desired version exposes.
  ghost predicate TakesEverything(w: World, desired: Name) {
    forall v, n ::
      v in w.server.routes && IsRival(w, desired, n) && w.server.routes[v] == w.server.endpoints[Own(n)]
      ==> v in Services(w, desired)
  }

  // Forcing the desired version settles the matter exactly when no rival holds a service it does
  // not expose.
  lemma ForceSettles(w: World, l: Label, desired: Name)
    requires Inv(w) && w.rsd.desired == desired && Forces(w, l, desired)
    ensures Settled(Step(w, l), desired) <==> TakesEverything(w, desired)
  {
    RegisteringStep(w, l.choice);
    var u := Step(w, l);
    forall n | n != desired
      ensures Own(n) in u.server.endpoints <==> Own(n) in w.server.endpoints
      ensures Own(n) in w.server.endpoints ==>
        && u.server.endpoints[Own(n)] == w.server.endpoints[Own(n)]
        && forall v :: (v in u.server.routes && u.server.routes[v] == u.server.endpoints[Own(n)]) <==>
             (v in w.server.routes && w.server.routes[v] == w.server.endpoints[Own(n)] && v !in Services(w, desired))
    {
      ForceLeaves(w, u, l.choice.newId, desired, n);
    }
    hide Step, Inv, Restate.Register, Take;
  }

  lemma ForceLeaves(w: World, u: World, newId: DeploymentId, desired: Name, n: Name)
    requires Consistent(w.server) && n != desired && (Own(desired) in w.server.endpoints || newId !in w.server.minted)
    requires u.server == Restate.Register(w.server, Own(desired), Services(w, desired), true, newId).0
    ensures Own(n) in u.server.endpoints <==> Own(n) in w.server.endpoints
    ensures Own(n) in w.server.endpoints ==>
      && u.server.endpoints[Own(n)] == w.server.endpoints[Own(n)]
      && forall v :: (v in u.server.routes && u.server.routes[v] == u.server.endpoints[Own(n)]) <==>
           (v in w.server.routes && w.server.routes[v] == w.server.endpoints[Own(n)] && v !in Services(w, desired))
  {
  }

  lemma CoveringTakesEverything(w: World, desired: Name)
    requires Standing(w, desired)
    ensures TakesEverything(w, desired)
  {
  }

  // A plan promotes exactly when the recorded id is registered and superseded, and a rival serves
  // something. A version whose registration was lost is no rival: its id is on no version.
  lemma PromotesExactlyWhen(w: World, rsd: Rsd, owned: seq<DeploymentId>)
    requires Inv(w) && LostUnrecorded(w) && !w.phase.Recording? && ListsOwned(owned, w.versions)
    ensures
      var recorded := Recorded(w, rsd.desired);
      PlanRegistration(recorded, UsageOf(w.server, Rollout), owned).Promote? <==>
        && recorded.Some? && recorded.value in w.server.deployments && !IsLatest(w.server, recorded.value)
        && !OthersSuperseded(w, rsd.desired)
  {
    var usage, recorded := UsageOf(w.server, Rollout), Recorded(w, rsd.desired);
    if recorded.Some? {
      RivalsSupersede(w, rsd.desired, recorded.value, owned);
    }
    hide Inv, ListsOwned, OthersSuperseded, LostUnrecorded;
  }

  lemma RivalsSupersede(w: World, desired: Name, recorded: DeploymentId, owned: seq<DeploymentId>)
    requires Inv(w) && LostUnrecorded(w) && !w.phase.Recording? && ListsOwned(owned, w.versions)
    requires Recorded(w, desired) == Some(recorded)
    ensures
      (exists id :: id in owned && Supersedes(UsageOf(w.server, Rollout), recorded, id))
      <==> !OthersSuperseded(w, desired)
  {
    var usage := UsageOf(w.server, Rollout);
    forall id | id in owned && Supersedes(usage, recorded, id) ensures !OthersSuperseded(w, desired) {
      var n :| n in w.versions && w.versions[n].id == Some(id);
      assert n != desired && w.server.minted[id] == Own(n) && w.server.endpoints[Own(n)] == id;
      assert IsRival(w, desired, n);
    }
    if !OthersSuperseded(w, desired) {
      var n :| IsRival(w, desired, n) && IsLatest(w.server, w.server.endpoints[Own(n)]);
      var id := w.server.endpoints[Own(n)];
      assert n in w.versions && w.versions[n].id == Some(id);
      assert w.server.minted[id] == Own(n) && w.server.minted[recorded] == Own(desired);
      assert id in owned && Supersedes(usage, recorded, id);
    }
  }

  // A settled world stays settled: only a plan to promote could register with force.
  lemma StepKeepsSettled(w: World, l: Label, desired: Name)
    requires Inv(w) && LostUnrecorded(w) && w.rsd.desired == desired && KeepsDesired(l, desired) && Settled(w, desired)
    ensures Settled(Step(w, l), desired) && Step(w, l).rsd.desired == desired
  {
    assert Consistent(w.server);
    StepMovesTowards(w, l);
    OthersStaySuperseded(w, Step(w, l));
    StepKeepsTarget(w, l, desired);
    RegistersWithoutForce(w, l, desired);
    hide Inv, Step, MovesTowards, Consistent, OthersSuperseded;
  }

  lemma RegistersWithoutForce(w: World, l: Label, desired: Name)
    requires Inv(w) && LostUnrecorded(w) && Settled(w, desired)
    ensures Step(w, l).phase.Registering? ==> !Step(w, l).phase.force
  {
    if l.Op? && w.phase.Querying? {
      if ListsOwned(l.choice.owned, w.versions) {
        PromotesExactlyWhen(w, w.phase.rsd, l.choice.owned);
      }
      hide Inv, UsageOf, PlanRegistration, ListsOwned, OthersSuperseded, LostUnrecorded;
    } else {
      hide Inv, UsageOf, PlanRegistration, ListsOwned, OthersSuperseded, Restate.Register, IsNewestFirst, JobFor,
        AdoptionWrites, Effect, LostUnrecorded;
    }
  }

  // A terminating RestateDeployment whose last rollout pass is past registering.
  ghost predicate Over(w: World) {
    && w.rsd.deletedAt.Some?
    && !w.phase.Adopting? && !w.phase.Checking? && !w.phase.Querying? && !w.phase.Registering?
  }

  lemma StepKeepsOver(w: World, l: Label)
    requires Over(w)
    ensures Over(Step(w, l))
  {
    if l.Op? && w.phase.Cleaning? && w.phase.job.queue != [] {
      CleaningStep(w, l.choice);
      hide Step, Effect;
    } else {
      hide UsageOf, IsNewestFirst, JobFor, AdoptionWrites, Effect;
    }
  }

  // The history from step `from` on keeps the desired version.
  ghost predicate KeepsDesiredFrom(run: seq<Label>, from: nat, desired: Name) {
    forall k :: from <= k < |run| ==> KeepsDesired(run[k], desired)
  }

  lemma {:induction false} StandsFrom(w0: World, run: seq<Label>, from: nat, desired: Name)
    requires Initial(w0) && from <= |run| && KeepsDesiredFrom(run, from, desired)
    requires Exec(w0, run[..from]).rsd.desired == desired && Covers(Exec(w0, run[..from]), desired)
    ensures Standing(Exec(w0, run), desired)
    decreases |run|
  {
    if |run| == from {
      assert run[..from] == run;
      RunServesAsDiscovered(w0, run);
    } else {
      var before := run[..|run| - 1];
      assert before[..from] == run[..from];
      StandsFrom(w0, before, from, desired);
      StepKeepsStanding(Exec(w0, before), run[|run| - 1], desired);
    }
  }

  // Step `i` of the run completes a forced registration of `desired`.
  ghost predicate ForcesAt(w0: World, run: seq<Label>, i: nat, desired: Name) {
    i < |run| && Forces(Exec(w0, run[..i]), run[i], desired)
  }

  // Nothing forces `desired` from here on.
  ghost predicate Finished(w: World, desired: Name) {
    Over(w) || (Settled(w, desired) && w.rsd.desired == desired)
  }

  lemma StepKeepsFinished(w: World, l: Label, desired: Name)
    requires Inv(w) && LostUnrecorded(w) && KeepsDesired(l, desired) && Finished(w, desired)
    ensures Finished(Step(w, l), desired)
  {
    hide *;
    FinishedIs(w, desired);
    if Over(w) {
      StepKeepsOver(w, l);
    } else {
      StepKeepsSettled(w, l, desired);
    }
    FinishedIs(Step(w, l), desired);
  }

  lemma FinishedIs(w: World, desired: Name)
    ensures Finished(w, desired) <==> Over(w) || (Settled(w, desired) && w.rsd.desired == desired)
    ensures Finished(w, desired) ==> forall l :: !Forces(w, l, desired)
  {
  }

  // What decides whether a forced registration was the last: no rival keeps a service, or no
  // rollout pass follows.
  ghost predicate IsLast(w: World, desired: Name) {
    w.rsd.deletedAt.Some? || TakesEverything(w, desired)
  }

  lemma LastForceFinishes(w: World, l: Label, desired: Name)
    requires Inv(w) && w.rsd.desired == desired && Forces(w, l, desired) && IsLast(w, desired)
    ensures Finished(Step(w, l), desired)
  {
    ForceSettles(w, l, desired);
    RegisteringStep(w, l.choice);
    hide Inv, Step, TakesEverything, OthersSuperseded, Restate.Register;
  }

  lemma {:induction false} FinishedAfterForce(w0: World, run: seq<Label>, i: nat, desired: Name)
    requires Initial(w0) && KeepsDesiredFrom(run, i, desired) && ForcesAt(w0, run, i, desired)
    requires Exec(w0, run[..i]).rsd.desired == desired && IsLast(Exec(w0, run[..i]), desired)
    ensures Finished(Exec(w0, run), desired)
    decreases |run|
  {
    var before, l := run[..|run| - 1], run[|run| - 1];
    var w := Exec(w0, before);
    RunStaysTraced(w0, before);
    hide Initial, Finished, IsLast, Inv, Step, LostUnrecorded;
    if i == |run| - 1 {
      LastForceFinishes(w, l, desired);
    } else {
      assert before[..i] == run[..i] && before[i] == run[i];
      FinishedAfterForce(w0, before, i, desired);
      StepKeepsFinished(w, l, desired);
    }
  }

  // After a forced registration that left no rival with a service, or of a RestateDeployment that
  // is going, no forced registration of the same version completes again, whatever the
  // environment registers and however often the operator reconciles.
  lemma ForcesOnce(w0: World, run: seq<Label>, i: nat, desired: Name)
    requires Initial(w0) && KeepsDesiredFrom(run, i, desired) && ForcesAt(w0, run, i, desired)
    requires Exec(w0, run[..i]).rsd.desired == desired && IsLast(Exec(w0, run[..i]), desired)
    ensures forall j :: i < j ==> !ForcesAt(w0, run, j, desired)
  {
    forall j | i < j && j < |run| ensures !ForcesAt(w0, run, j, desired) {
      var upTo := run[..j];
      assert upTo[..i] == run[..i] && upTo[i] == run[i];
      FinishedAfterForce(w0, upTo, i, desired);
      FinishedIs(Exec(w0, upTo), desired);
    }
  }

  // No promotion war: from any reachable state on, while the desired version stays the same and
  // covers the other owned ones, at most one forced registration of it completes.
  lemma NoPromotionWar(w0: World, run: seq<Label>, from: nat, desired: Name)
    requires Initial(w0) && from <= |run| && KeepsDesiredFrom(run, from, desired)
    requires Exec(w0, run[..from]).rsd.desired == desired && Covers(Exec(w0, run[..from]), desired)
    ensures forall i, j :: from <= i < j && ForcesAt(w0, run, i, desired) ==> !ForcesAt(w0, run, j, desired)
  {
    forall i, j | from <= i < j && ForcesAt(w0, run, i, desired) && j < |run|
      ensures !ForcesAt(w0, run, j, desired)
    {
      var upTo := run[..i];
      assert upTo[..from] == run[..from];
      StandsFrom(w0, upTo, from, desired);
      CoveringTakesEverything(Exec(w0, upTo), desired);
      ForcesOnce(w0, run, i, desired);
    }
  }
}
