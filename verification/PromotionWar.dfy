// Exactly when a forced registration was the last: if a rival keeps a service it did not take, a
// foreign controller can make the operator force again.
module PromotionWar {
  import opened Base
  import opened Usage
  import opened Policy
  import opened Restate
  import opened Registration
  import opened Cleanup
  import opened Lifecycle
  import opened LifecycleInvariant
  import opened LifecycleSafety
  import opened LifecycleLost
  import opened Promotion

  // The run goes on, and the desired version stays the same.
  ghost predicate Extends(run: seq<Label>, longer: seq<Label>, desired: Name) {
    |run| <= |longer| && longer[..|run|] == run && KeepsDesiredFrom(longer, |run|, desired)
  }

  // It goes on to force `desired` again.
  ghost predicate ForcedAgain(w0: World, run: seq<Label>, longer: seq<Label>, desired: Name) {
    Extends(run, longer, desired) && exists j :: |run| <= j && ForcesAt(w0, longer, j, desired)
  }

  lemma ExtendsItself(run: seq<Label>, desired: Name)
    ensures Extends(run, run, desired)
  {
  }

  lemma ExtendsOn(a: seq<Label>, b: seq<Label>, c: seq<Label>, desired: Name)
    requires Extends(a, b, desired) && Extends(b, c, desired)
    ensures Extends(a, c, desired)
  {
    assert c[..|a|] == c[..|b|][..|a|];
    forall k | |a| <= k < |c| ensures KeepsDesired(c[k], desired) {
      if k < |b| {
        assert c[k] == c[..|b|][k] == b[k];
      }
    }
  }

  // One more step.
  lemma OneMore(w0: World, run: seq<Label>, longer: seq<Label>, l: Label, desired: Name)
    requires Extends(run, longer, desired) && KeepsDesired(l, desired)
    ensures Extends(run, longer + [l], desired) && Exec(w0, longer + [l]) == Step(Exec(w0, longer), l)
  {
    ExecSnoc(w0, longer, l);
    assert (longer + [l])[..|run|] == longer[..|run|];
  }

  // --- What the foreign controller does ---

  lemma {:induction false} LongerThanAll(ids: set<DeploymentId>) returns (length: nat)
    ensures forall id :: id in ids ==> |id| <= length
    decreases |ids|
  {
    length := 0;
    if ids != {} {
      var id :| id in ids;
      length := LongerThanAll(ids - {id});
      length := Max(length, |id|);
    }
  }

  // Ids never run out.
  lemma FreshId(s: Server) returns (id: DeploymentId)
    ensures id !in s.minted
  {
    var length := LongerThanAll(s.minted.Keys);
    id := seq(length + 1, _ => 'x');
  }

  // It takes the services of one deployment and leaves the rest of the routes alone.
  lemma ForeignTakes(s: Server, id: DeploymentId, newId: DeploymentId)
    requires Consistent(s) && id in s.deployments && s.minted[id].Own? && newId !in s.minted
    ensures
      var t := Environment(s, ForeignRegister(0, s.deployments[id], true, newId));
      && !IsLatest(t, id) && id in t.deployments
      && (forall n :: Own(n) in s.endpoints ==> Own(n) in t.endpoints && t.endpoints[Own(n)] == s.endpoints[Own(n)])
      && (forall v :: v in s.routes && v !in s.deployments[id] && s.minted[s.routes[v]].Own? ==>
            v in t.routes && t.routes[v] == s.routes[v])
  {
  }

  // --- What the operator does then ---

  lemma {:induction false} OwnedAmong(names: set<Name>, versions: map<Name, Version>) returns (owned: seq<DeploymentId>)
    requires names <= versions.Keys
    ensures forall n :: n in names && versions[n].id.Some? ==> versions[n].id.value in owned
    ensures forall id :: id in owned ==> exists n :: n in versions && versions[n].id == Some(id)
    decreases |names|
  {
    owned := [];
    if names != {} {
      var n :| n in names;
      owned := OwnedAmong(names - {n}, versions);
      if versions[n].id.Some? {
        owned := owned + [versions[n].id.value];
      }
    }
  }

  lemma OwnedList(versions: map<Name, Version>) returns (owned: seq<DeploymentId>)
    ensures ListsOwned(owned, versions)
  {
    owned := OwnedAmong(versions.Keys, versions);
  }

  lemma AdoptionStep(w: World, desired: Name)
    requires Inv(w) && w.phase.Adopting? && w.phase.writes != [] && w.phase.rsd.desired == desired
    ensures
      var u := Step(w, Op(Anything));
      && u.phase == Adopting(w.phase.rsd, w.phase.writes[1..])
      && u.server == w.server && u.rsd == w.rsd && u.lost == w.lost
      && (Recorded(w, desired).Some? ==> Recorded(u, desired) == Recorded(w, desired))
  {
    AdoptionWriteFacts(w, w.phase.rsd, w.phase.writes);
    AdoptingStep(w, Anything);
    hide Step, Apply, Inv, AdoptingOk;
  }

  // The pass adopts the current version.
  lemma {:induction false} AdoptAll(w0: World, run: seq<Label>, desired: Name) returns (longer: seq<Label>)
    requires Initial(w0)
    requires
      var w := Exec(w0, run);
      w.phase.Adopting? && w.phase.rsd.desired == desired && Recorded(w, desired).Some?
    ensures Extends(run, longer, desired)
    ensures
      var w, u := Exec(w0, run), Exec(w0, longer);
      && u.phase == Adopting(w.phase.rsd, [])
      && u.server == w.server && u.rsd == w.rsd && u.lost == w.lost && Recorded(u, desired) == Recorded(w, desired)
    decreases |Exec(w0, run).phase.writes|
  {
    var w := Exec(w0, run);
    longer := run;
    ExtendsItself(run, desired);
    if w.phase.writes != [] {
      RunStaysTraced(w0, run);
      AdoptionStep(w, desired);
      OneMore(w0, run, run, Op(Anything), desired);
      hide *;
      longer := AdoptAll(w0, run + [Op(Anything)], desired);
      ExtendsOn(run, run + [Op(Anything)], longer, desired);
    }
  }

  // A rival serves something the current version does not.
  ghost predicate Provoked(w: World, desired: Name, id: DeploymentId) {
    && w.rsd.desired == desired && w.rsd.deletedAt.None?
    && Own(desired) in w.server.endpoints && w.server.endpoints[Own(desired)] == id
    && id in w.server.deployments
    && exists n, v :: Provokes(w, desired, id, n, v)
  }

  ghost predicate Provokes(w: World, desired: Name, id: DeploymentId, n: Name, v: Service) {
    && IsRival(w, desired, n) && v in w.server.routes && w.server.routes[v] == w.server.endpoints[Own(n)]
    && (id in w.server.deployments ==> v !in w.server.deployments[id])
  }

  lemma ForcedServes(s: Server, desired: Name, services: set<Service>, newId: DeploymentId)
    ensures
      var (t, id) := Restate.Register(s, Own(desired), services, true, newId);
      && Own(desired) in t.endpoints && t.endpoints[Own(desired)] == id
      && id in t.deployments && t.deployments[id] == services
  {
  }

  lemma AdoptedIsThere(w: World)
    requires Inv(w) && w.phase.Registering?
    ensures w.phase.rsd.desired in w.versions && Consistent(w.server)
  {
  }

  lemma AfterForce(w: World, l: Label, desired: Name)
    requires Inv(w) && Forces(w, l, desired) && w.rsd.desired == desired && !IsLast(w, desired)
    ensures
      var u := Step(w, l);
      u.phase.Recording? && u.phase.rsd.desired == desired && desired in u.versions && Provoked(u, desired, u.phase.id)
  {
    RegisteringStep(w, l.choice);
    AdoptedIsThere(w);
    ForcedServes(w.server, desired, Services(w, desired), l.choice.newId);
    var u := Step(w, l);
    var v, n :|
      v in w.server.routes && IsRival(w, desired, n) && w.server.routes[v] == w.server.endpoints[Own(n)]
      && v !in Services(w, desired);
    ForceLeaves(w, u, l.choice.newId, desired, n);
    hide Inv, Step, Restate.Register, Consistent, IsLast;
    assert v in u.server.routes && u.server.routes[v] == u.server.endpoints[Own(n)];
    assert Provokes(u, desired, u.phase.id, n, v);
  }

  lemma RecordStep(w: World, desired: Name)
    requires w.phase.Recording? && w.phase.rsd.desired == desired && desired in w.versions
    requires Provoked(w, desired, w.phase.id)
    ensures
      var u := Step(w, Op(Anything));
      u.phase.Confirming? && Recorded(u, desired) == Some(w.phase.id) && Provoked(u, desired, w.phase.id)
  {
    var u := Step(w, Op(Anything));
    assert u == Apply(w, RecordId(desired, w.phase.id)).(phase := u.phase, lost := w.lost - {desired});
    var n, v :| Provokes(w, desired, w.phase.id, n, v);
    assert Provokes(u, desired, w.phase.id, n, v);
  }

  lemma StopStep(w: World, desired: Name, id: DeploymentId)
    requires w.phase.Confirming? && Provoked(w, desired, id)
    ensures
      var u := Step(w, Crash);
      u == w.(phase := Idle) && Provoked(u, desired, id)
  {
    var n, v :| Provokes(w, desired, id, n, v);
    assert Provokes(Step(w, Crash), desired, id, n, v);
  }

  // The recorded version is superseded, with a rival that serves.
  ghost predicate Beaten(w: World, desired: Name) {
    && w.rsd.desired == desired && w.rsd.deletedAt.None?
    && Own(desired) in w.server.endpoints && Recorded(w, desired) == Some(w.server.endpoints[Own(desired)])
    && w.server.endpoints[Own(desired)] in w.server.deployments
    && !IsLatest(w.server, w.server.endpoints[Own(desired)]) && !OthersSuperseded(w, desired)
  }

  lemma TakeStep(w: World, desired: Name, id: DeploymentId, newId: DeploymentId)
    requires Inv(w) && w.phase.Idle? && Provoked(w, desired, id) && Recorded(w, desired) == Some(id)
    requires newId !in w.server.minted
    ensures
      var u := Step(w, Env(ForeignRegister(0, w.server.deployments[id], true, newId)));
      u.phase.Idle? && Beaten(u, desired)
  {
    ForeignTakes(w.server, id, newId);
    var n, v :| Provokes(w, desired, id, n, v);
    var u := Step(w, Env(ForeignRegister(0, w.server.deployments[id], true, newId)));
    assert IsRival(u, desired, n) && IsLatest(u.server, u.server.endpoints[Own(n)]);
    hide Environment, Inv;
  }

  // The pass records the id and stops, and a foreign controller takes what it registered.
  lemma Provoke(w0: World, run: seq<Label>, desired: Name) returns (longer: seq<Label>)
    requires Initial(w0)
    requires
      var w := Exec(w0, run);
      && w.phase.Recording? && w.phase.rsd.desired == desired && desired in w.versions
      && Provoked(w, desired, w.phase.id)
    ensures Extends(run, longer, desired) && Exec(w0, longer).phase.Idle? && Beaten(Exec(w0, longer), desired)
  {
    var w := Exec(w0, run);
    var id := w.phase.id;
    ExtendsItself(run, desired);
    OneMore(w0, run, run, Op(Anything), desired);
    var recorded := run + [Op(Anything)];
    RecordStep(w, desired);
    OneMore(w0, run, recorded, Crash, desired);
    var stopped := recorded + [Crash];
    StopStep(Exec(w0, recorded), desired, id);
    var u := Exec(w0, stopped);
    RunStaysTraced(w0, stopped);
    var newId := FreshId(u.server);
    TakeStep(u, desired, id, newId);
    var take := Env(ForeignRegister(0, u.server.deployments[id], true, newId));
    OneMore(w0, run, stopped, take, desired);
    hide *;
    longer := stopped + [take];
  }

  // --- The next pass ---

  lemma BeatenOn(w: World, u: World, desired: Name)
    requires Beaten(w, desired) && u.server == w.server && u.rsd == w.rsd && u.lost == w.lost
    requires Recorded(u, desired) == Recorded(w, desired)
    ensures Beaten(u, desired)
  {
    var n :| IsRival(w, desired, n) && IsLatest(w.server, w.server.endpoints[Own(n)]);
    assert IsRival(u, desired, n);
  }

  lemma BeginStep(w: World, desired: Name)
    requires w.phase.Idle? && Beaten(w, desired)
    ensures
      var u := Step(w, Begin(false));
      u.phase.Adopting? && u.phase.rsd.desired == desired && Beaten(u, desired) && Recorded(u, desired).Some?
  {
    BeatenOn(w, Step(w, Begin(false)), desired);
    hide AdoptionWrites;
  }

  lemma CheckSteps(w: World, desired: Name)
    requires Inv(w) && w.phase.Adopting? && w.phase.writes == [] && w.phase.rsd.desired == desired && Beaten(w, desired)
    ensures
      var u := Step(Step(w, Op(Anything)), Op(Anything));
      u.phase.Querying? && u.phase.rsd.desired == desired && Beaten(u, desired)
  {
    var n :| IsRival(w, desired, n) && IsLatest(w.server, w.server.endpoints[Own(n)]);
    assert n in w.versions;
    BeatenOn(w, Step(Step(w, Op(Anything)), Op(Anything)), desired);
    hide Inv;
  }

  lemma PlanStep(w: World, desired: Name, owned: seq<DeploymentId>)
    requires Inv(w) && LostUnrecorded(w) && w.phase.Querying? && w.phase.rsd.desired == desired && Beaten(w, desired)
    requires ListsOwned(owned, w.versions)
    ensures
      var u := Step(w, Op(Anything.(ready := true, owned := owned)));
      && u.phase.Registering? && u.phase.force && u.phase.rsd.desired == desired
      && Own(desired) in u.server.endpoints
  {
    PromotesExactlyWhen(w, w.phase.rsd, owned);
    hide Inv, UsageOf, PlanRegistration, ListsOwned, OthersSuperseded, LostUnrecorded;
  }

  // The pass comes to its plan, which is to promote, and forces.
  lemma Force(w0: World, run: seq<Label>, desired: Name) returns (longer: seq<Label>)
    requires Initial(w0) && Exec(w0, run).phase.Idle? && Beaten(Exec(w0, run), desired)
    ensures Extends(run, longer, desired) && longer != run && ForcesAt(w0, longer, |longer| - 1, desired)
  {
    hide *;
    ExtendsItself(run, desired);
    OneMore(w0, run, run, Begin(false), desired);
    BeginStep(Exec(w0, run), desired);
    var begun := run + [Begin(false)];
    var adopted := AdoptAll(w0, begun, desired);
    ExtendsOn(run, begun, adopted, desired);
    BeatenOn(Exec(w0, begun), Exec(w0, adopted), desired);
    RunStaysTraced(w0, adopted);
    CheckSteps(Exec(w0, adopted), desired);
    OneMore(w0, run, adopted, Op(Anything), desired);
    var checking := adopted + [Op(Anything)];
    OneMore(w0, run, checking, Op(Anything), desired);
    var querying := checking + [Op(Anything)];
    var q := Exec(w0, querying);
    RunStaysTraced(w0, querying);
    var owned := OwnedList(q.versions);
    TracedIs(q);
    PlanStep(q, desired, owned);
    var plan := Op(Anything.(ready := true, owned := owned));
    OneMore(w0, run, querying, plan, desired);
    var planned := querying + [plan];
    OneMore(w0, run, planned, Op(Anything), desired);
    longer := planned + [Op(Anything)];
    ForcesNow(w0, planned, desired);
  }

  lemma TracedIs(w: World)
    requires Traced(w)
    ensures LostUnrecorded(w)
  {
  }

  lemma ForcesNow(w0: World, run: seq<Label>, desired: Name)
    requires
      var w := Exec(w0, run);
      && w.phase.Registering? && w.phase.force && w.phase.rsd.desired == desired
      && Own(desired) in w.server.endpoints
    ensures ForcesAt(w0, run + [Op(Anything)], |run|, desired)
  {
    assert (run + [Op(Anything)])[..|run|] == run;
    hide Exec;
  }

  // --- Exactly when ---

  // A forced registration is followed by another of the same version, in some run that keeps it
  // desired, exactly when the RestateDeployment is not going and a rival kept a service that the
  // desired version does not expose.
  lemma ForcesAgainExactlyWhen(w0: World, run: seq<Label>, desired: Name)
    requires Initial(w0) && run != [] && ForcesAt(w0, run, |run| - 1, desired)
    requires Exec(w0, run[..|run| - 1]).rsd.desired == desired
    ensures (exists longer :: ForcedAgain(w0, run, longer, desired)) <==> !IsLast(Exec(w0, run[..|run| - 1]), desired)
  {
    var i := |run| - 1;
    if IsLast(Exec(w0, run[..i]), desired) {
      forall longer ensures !ForcedAgain(w0, run, longer, desired) {
        if Extends(run, longer, desired) {
          NotForcedAgain(w0, run, longer, desired);
        }
      }
    } else {
      RunStaysTraced(w0, run[..i]);
      AfterForce(Exec(w0, run[..i]), run[i], desired);
      var provoked := Provoke(w0, run, desired);
      var longer := Force(w0, provoked, desired);
      ExtendsOn(run, provoked, longer, desired);
      assert ForcedAgain(w0, run, longer, desired);
    }
  }

  lemma NotForcedAgain(w0: World, run: seq<Label>, longer: seq<Label>, desired: Name)
    requires Initial(w0) && run != [] && ForcesAt(w0, run, |run| - 1, desired) && Extends(run, longer, desired)
    requires Exec(w0, run[..|run| - 1]).rsd.desired == desired && IsLast(Exec(w0, run[..|run| - 1]), desired)
    ensures !ForcedAgain(w0, run, longer, desired)
  {
    var i := |run| - 1;
    assert longer[..i] == longer[..|run|][..i] == run[..i] && longer[i] == longer[..|run|][i] == run[i];
    assert KeepsDesiredFrom(longer, i, desired);
    ForcesOnce(w0, longer, i, desired);
  }
}
