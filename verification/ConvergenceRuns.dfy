// Registration converges over runs of the lifecycle: two passes left alone, cleanup included
// (controller.rs, registration.rs).
module ConvergenceRuns {
  import opened Base
  import opened Usage
  import opened Policy
  import opened Restate
  import opened Registration
  import opened Cleanup
  import opened Convergence
  import opened Lifecycle
  import opened LifecycleInvariant
  import opened LifecycleCleaning
  import opened LifecycleSafety

  // A rollout pass from its beginning to its end with nothing around it, pods ready.
  ghost predicate PassAlone(w: World, run: seq<Label>) {
    && w.phase.Idle? && w.rsd.deletedAt.None? && run != [] && run[0] == Begin(false)
    && (forall k :: 1 <= k < |run| ==> run[k].Op? && run[k].choice.ready)
    && Exec(w, run).phase.Idle?
  }

  // The services the current version exposes.
  ghost function Wanted(w: World): set<Service> {
    Services(w, w.rsd.desired)
  }

  // They route to the current version, which has its id on record.
  ghost predicate Won(w: World) {
    Wanted(w) != {} && Convergence.Routed(w.server, w.rsd.desired, Wanted(w), Recorded(w, w.rsd.desired))
  }

  ghost predicate Registered(w: World) {
    Own(w.rsd.desired) in w.server.endpoints
  }

  ghost predicate HoldsThem(w: World, id: DeploymentId) {
    ConfirmedLatest(w.server, id, Wanted(w))
  }

  // They route to another version, with its id on record.
  ghost predicate SiblingHolds(w: World) {
    exists m :: m != w.rsd.desired && Recorded(w, m).Some? && HoldsThem(w, Recorded(w, m).value)
  }

  ghost predicate OnRecord(w: World) {
    Registered(w) && Recorded(w, w.rsd.desired) == Some(w.server.endpoints[Own(w.rsd.desired)])
  }

  // The next pass left alone gets them.
  ghost predicate WinsNow(w: World) {
    Registered(w) ==>
      HoldsThem(w, w.server.endpoints[Own(w.rsd.desired)]) || (OnRecord(w) && SiblingHolds(w))
  }

  // Some pass left alone does.
  ghost predicate CanWin(w: World) {
    Registered(w) ==> HoldsThem(w, w.server.endpoints[Own(w.rsd.desired)]) || SiblingHolds(w)
  }

  ghost predicate Settled(w: World) {
    Won(w) || (Consistent(w.server) && SameServices(w.server, Wanted(w)))
  }

  // The spec, what is discovered and the recorded ids are the same, but for the current version's.
  ghost predicate SameSiblings(w0: World, w: World) {
    && w.rsd == w0.rsd && w.discovery == w0.discovery
    && (forall m :: m != w0.rsd.desired ==> Recorded(w, m) == Recorded(w0, m))
  }

  ghost predicate SameRecords(w0: World, w: World) {
    SameSiblings(w0, w) && w.server == w0.server && Recorded(w, w0.rsd.desired) == Recorded(w0, w0.rsd.desired)
  }

  // What a pass from `w0` leaves.
  ghost predicate Outcome(w0: World, w: World) {
    if WinsNow(w0) then Won(w)
    else SameSiblings(w0, w) && w.server == w0.server && OnRecord(w)
  }

  // The pass has learned `id` for the current version.
  ghost predicate Learned(w0: World, w: World, id: DeploymentId) {
    && SameSiblings(w0, w) && Registered(w) && w.server.endpoints[Own(w0.rsd.desired)] == id
    && (if WinsNow(w0) then HoldsThem(w, id) else w.server == w0.server)
  }

  // Where a pass from `w0` stands.
  ghost predicate Alone(w0: World, w: World) {
    && w.rsd == w0.rsd && w.discovery == w0.discovery && w.server.invocations == w0.server.invocations
    && (!w.phase.Idle? && !w.phase.Released? ==> w.phase.rsd == w0.rsd)
    && match w.phase
       case Idle => Outcome(w0, w)
       case Adopting(_, _) => SameRecords(w0, w)
       case Checking(_) => SameRecords(w0, w)
       case Querying(_) => SameRecords(w0, w)
       case Registering(_, _, force) =>
         && SameRecords(w0, w) && (force ==> Registered(w0) && WinsNow(w0))
         && (!force && Registered(w0) && WinsNow(w0) ==> HoldsThem(w0, w0.server.endpoints[Own(w0.rsd.desired)]))
       case Recording(_, _, id) => Learned(w0, w, id)
       case Confirming(_, _, id) => Learned(w0, w, id) && Recorded(w, w0.rsd.desired) == Some(id)
       case Planning(_, mode, _, _) => mode.Rollout? && WinsNow(w0) && Won(w)
       case Cleaning(_, mode, job) => mode.Rollout? && !job.settled && WinsNow(w0) && Won(w)
       case _ => false
  }

  // --- Planning the registration ---

  // What a recorded id that is still registered, and what holds services, must be.
  lemma RecordedIsOwn(w: World, m: Name)
    requires Inv(w) && Recorded(w, m).Some? && Recorded(w, m).value in w.server.deployments
    ensures Own(m) in w.server.endpoints && w.server.endpoints[Own(m)] == Recorded(w, m).value
  {
  }

  lemma LatestIsHolding(w: World, m: Name)
    requires Inv(w) && SameServices(w.server, Wanted(w))
    requires Recorded(w, m).Some? && Recorded(w, m).value in w.server.deployments
    ensures IsLatest(w.server, Recorded(w, m).value) <==> HoldsThem(w, Recorded(w, m).value)
  {
    RecordedIsOwn(w, m);
    LatestMeansHolding(w.server, Wanted(w), m);
  }

  // What the plan says about winning now.
  ghost predicate PlanTells(w: World, action: Action) {
    match action
    case AlreadyLatest(_) => Won(w)
    case Conflict => !WinsNow(w) && OnRecord(w)
    case Promote(_) => Registered(w) && WinsNow(w)
    case Register =>
      Registered(w) && WinsNow(w) ==> HoldsThem(w, w.server.endpoints[Own(w.rsd.desired)])
  }

  lemma WonPlans(w: World, usage: UsageMap, owned: seq<DeploymentId>)
    requires Won(w) && Consistent(w.server) && usage == UsageOf(w.server, Rollout)
    ensures PlanRegistration(Recorded(w, w.rsd.desired), usage, owned).AlreadyLatest?
  {
    var u :| u in Wanted(w);
    assert w.server.routes[u] == Recorded(w, w.rsd.desired).value;
  }

  // A rival among the recorded ids is a sibling that holds the services, and the other way round.
  lemma HolderIsSibling(w: World, recorded: DeploymentId, owned: seq<DeploymentId>)
    requires Inv(w) && SameServices(w.server, Wanted(w)) && ListsOwned(owned, w.versions)
    requires Recorded(w, w.rsd.desired) == Some(recorded)
    ensures
      (exists id :: id in owned && Supersedes(UsageOf(w.server, Rollout), recorded, id)) <==> SiblingHolds(w)
  {
    var usage := UsageOf(w.server, Rollout);
    forall id | id in owned && Supersedes(usage, recorded, id) ensures SiblingHolds(w) {
      var m :| m in w.versions && w.versions[m].id == Some(id);
      LatestIsHolding(w, m);
      assert m != w.rsd.desired && Recorded(w, m) == Some(id);
    }
    if SiblingHolds(w) {
      var m :| m != w.rsd.desired && Recorded(w, m).Some? && HoldsThem(w, Recorded(w, m).value);
      var id := Recorded(w, m).value;
      var u :| u in Wanted(w);
      assert w.server.routes[u] == id && id in w.server.deployments;
      assert w.server.minted[id] == Own(m) && w.server.minted[recorded] == Own(w.rsd.desired);
      assert id in owned && Supersedes(usage, recorded, id);
    }
  }

  lemma PlanTellsTruth(w: World, owned: seq<DeploymentId>)
    requires Inv(w) && Settled(w) && ListsOwned(owned, w.versions)
    ensures PlanTells(w, PlanRegistration(Recorded(w, w.rsd.desired), UsageOf(w.server, Rollout), owned))
  {
    var usage, recorded := UsageOf(w.server, Rollout), Recorded(w, w.rsd.desired);
    if Won(w) {
      WonPlans(w, usage, owned);
    } else if recorded.Some? && recorded.value in usage {
      RecordedIsOwn(w, w.rsd.desired);
      LatestIsHolding(w, w.rsd.desired);
      HolderIsSibling(w, recorded.value, owned);
      hide Inv, ListsOwned, SiblingHolds, HoldsThem, SameServices;
    } else {
      RecordedIsKnown(w);
      hide Inv, ListsOwned, SiblingHolds, HoldsThem, SameServices;
    }
  }

  lemma RecordedIsKnown(w: World)
    requires Inv(w)
    ensures OnRecord(w) ==> Recorded(w, w.rsd.desired).value in UsageOf(w.server, Rollout)
  {
  }

  // --- Step by step ---

  lemma SameRecordsSame(w0: World, w: World)
    requires SameRecords(w0, w)
    ensures Won(w) <==> Won(w0)
    ensures WinsNow(w) <==> WinsNow(w0)
    ensures OnRecord(w) <==> OnRecord(w0)
    ensures Settled(w) <==> Settled(w0)
    ensures Wanted(w) == Wanted(w0)
  {
    SameHolders(w0, w);
    SameHolders(w, w0);
    hide SiblingHolds, SameServices, ConfirmedLatest;
  }

  lemma SameHolders(w0: World, w: World)
    requires SameRecords(w0, w)
    ensures SiblingHolds(w0) ==> SiblingHolds(w)
  {
    if SiblingHolds(w0) {
      var m :| m != w0.rsd.desired && Recorded(w0, m).Some? && HoldsThem(w0, Recorded(w0, m).value);
      assert Recorded(w, m) == Recorded(w0, m) && HoldsThem(w, Recorded(w, m).value);
    }
  }

  lemma WonWinsNow(w: World)
    ensures Won(w) ==> WinsNow(w) && OnRecord(w)
  {
  }

  lemma AdoptingAlone(w0: World, w: World, c: Choice)
    requires Inv(w) && Alone(w0, w) && w.phase.Adopting?
    ensures Alone(w0, Step(w, Op(c)))
  {
    if w.phase.writes != [] {
      AdoptionWriteFacts(w, w.phase.rsd, w.phase.writes);
      AdoptingStep(w, c);
      hide Step, Apply, Inv, AdoptingOk;
    }
  }

  lemma CheckingAlone(w0: World, w: World, c: Choice)
    requires Inv(w) && Settled(w0) && Alone(w0, w) && w.phase.Checking?
    ensures Alone(w0, Step(w, Op(c)))
  {
    if FastPath(w, w.phase.rsd) {
      SameRecordsSame(w0, w);
      var u :| u in w.server.routes && w.server.routes[u] == Recorded(w, w.rsd.desired).value;
      RecordedIsOwn(w, w.rsd.desired);
      if !Won(w) {
        LatestIsHolding(w, w.rsd.desired);
      }
      assert Won(w);
      WonWinsNow(w);
      WonOn(w, Step(w, Op(c)));
      hide Inv, Won, WinsNow, FastPath, SameServices, HoldsThem;
    }
  }

  lemma WonOn(w: World, u: World)
    requires Won(w) && u == w.(phase := u.phase, disturbed := u.disturbed)
    ensures Won(u)
  {
  }

  lemma QueryingAlone(w0: World, w: World, c: Choice)
    requires Inv(w) && Settled(w0) && Alone(w0, w) && w.phase.Querying? && c.ready
    ensures Alone(w0, Step(w, Op(c)))
  {
    if ListsOwned(c.owned, w.versions) {
      SameRecordsSame(w0, w);
      PlanTellsTruth(w, c.owned);
      PlanStep(w, c);
      WonWinsNow(w);
      var u := Step(w, Op(c));
      assert u == w.(phase := u.phase);
      if Won(w) { WonOn(w, u); }
      SameRecordsOn(w0, w, u);
      hide Inv, Won, WinsNow, Step, ListsOwned, UsageOf, PlanRegistration, SiblingHolds, Settled, SameRecords;
    }
  }

  lemma SameRecordsOn(w0: World, w: World, u: World)
    requires SameRecords(w0, w) && u == w.(phase := u.phase)
    ensures SameRecords(w0, u) && (OnRecord(w) ==> OnRecord(u)) && SameSiblings(w0, u) && u.server == w0.server
    ensures Registered(w) ==>
      Registered(w0) && HoldsThem(w, w.server.endpoints[Own(w.rsd.desired)])
                        == HoldsThem(w0, w0.server.endpoints[Own(w0.rsd.desired)])
  {
  }

  lemma RegisteringAlone(w0: World, w: World, c: Choice)
    requires Inv(w) && Alone(w0, w) && w.phase.Registering?
    ensures Alone(w0, Step(w, Op(c)))
  {
    var n := w0.rsd.desired;
    if Own(n) in w.server.endpoints || c.newId !in w.server.minted {
      RegisteringStep(w, c);
      RegisterKeepsWork(w.server, n, Services(w, n), w.phase.force, c.newId);
      hide Inv, Step, Restate.Register, SiblingHolds, ConfirmedLatest;
    } else {
      NotFresh(w, c);
      hide Step, Alone;
    }
  }

  lemma NotFresh(w: World, c: Choice)
    requires w.phase.Registering?
    requires Own(w.phase.rsd.desired) !in w.server.endpoints && c.newId in w.server.minted
    ensures Step(w, Op(c)) == w
  {
  }

  lemma RecordingAlone(w0: World, w: World, c: Choice)
    requires Alone(w0, w) && w.phase.Recording? && w0.rsd.desired in w.versions
    ensures Alone(w0, Step(w, Op(c)))
  {
    var n, u := w0.rsd.desired, Step(w, Op(c));
    assert u.versions == w.versions[n := w.versions[n].(id := Some(w.phase.id))] && u.server == w.server;
    hide Step, SiblingHolds, ConfirmedLatest;
  }

  lemma ConfirmingAlone(w0: World, w: World, c: Choice)
    requires Settled(w0) && Alone(w0, w) && w.phase.Confirming?
    ensures Alone(w0, Step(w, Op(c)))
  {
    hide SiblingHolds, ConfirmedLatest;
  }

  lemma PlanningAlone(w0: World, w: World, c: Choice)
    requires Alone(w0, w) && w.phase.Planning?
    ensures Alone(w0, Step(w, Op(c)))
  {
    if IsNewestFirst(c.order, w.versions, w.phase.except) {
      PlanningStep(w, c);
      var u := Step(w, Op(c));
      WonOn(w, u);
      hide Step, IsNewestFirst, Won, WinsNow;
    } else {
      hide IsNewestFirst, JobFor, Won, WinsNow;
    }
  }

  // A cleanup write leaves the current version and its routes alone.
  lemma WriteKeepsWon(w: World, x: Write)
    requires Won(w) && IdsAreOwn(w) && Consistent(w.server) && x.name != w.rsd.desired
    requires x.Deregister? ==> x.id in w.server.minted && w.server.minted[x.id] == Own(x.name)
    ensures
      var u := Apply(w, x);
      Won(u) && u.server.invocations == w.server.invocations && u.rsd == w.rsd && u.discovery == w.discovery
  {
  }

  lemma CleaningAlone(w0: World, w: World, c: Choice)
    requires Inv(w) && Alone(w0, w) && w.phase.Cleaning?
    ensures Alone(w0, Step(w, Op(c)))
  {
    var job := w.phase.job;
    if job.queue != [] {
      var x := job.queue[0];
      assert x in job.queue && Classified(x, w.phase.rsd, job.active, job.due, job.unstamped, w.server.minted);
      CleaningStep(w, c);
      var rest := w.(phase := Cleaning(w.phase.rsd, w.phase.mode, job.(queue := job.queue[1..])));
      WonOn(w, rest);
      WriteKeepsWon(rest, x);
      assert Apply(rest, x).phase == rest.phase;
      hide Step, Inv, Apply, Won, WinsNow;
    } else {
      CleanupEnds(w, c);
      WonOn(w, Step(w, Op(c)));
      hide Step, Inv, Won, WinsNow;
    }
  }

  lemma CleanupEnds(w: World, c: Choice)
    requires w.phase.Cleaning? && w.phase.job.queue == [] && !w.phase.job.settled
    ensures
      var u := Step(w, Op(c));
      u == w.(phase := Idle, disturbed := u.disturbed)
  {
  }

  lemma StepAlone(w0: World, w: World, c: Choice)
    requires Inv(w) && Settled(w0) && Alone(w0, w) && c.ready
    ensures Alone(w0, Step(w, Op(c)))
  {
    match w.phase
    case Idle => hide Alone;
    case Adopting(_, _) => AdoptingAlone(w0, w, c);
    case Checking(_) => CheckingAlone(w0, w, c);
    case Querying(_) => QueryingAlone(w0, w, c);
    case Registering(_, _, _) => RegisteringAlone(w0, w, c);
    case Recording(_, _, _) => RecordingAlone(w0, w, c);
    case Confirming(_, _, _) => ConfirmingAlone(w0, w, c);
    case Planning(_, _, _, _) => PlanningAlone(w0, w, c);
    case Cleaning(_, _, _) => CleaningAlone(w0, w, c);
    case _ =>
  }

  // --- Whole passes ---

  lemma BeginsAlone(w: World)
    requires w.phase.Idle? && w.rsd.deletedAt.None?
    ensures Alone(w, Step(w, Begin(false)))
  {
    hide AdoptionWrites;
  }

  lemma {:induction false} PassSoFar(w: World, run: seq<Label>, k: nat)
    requires Inv(w) && Settled(w) && PassAlone(w, run) && 1 <= k <= |run|
    ensures Inv(Exec(w, run[..k])) && Alone(w, Exec(w, run[..k]))
    decreases k
  {
    var u, l := Exec(w, run[..k - 1]), run[k - 1];
    assert run[..k][..k - 1] == run[..k - 1];
    if k == 1 {
      assert run[..0] == [];
      BeginsAlone(w);
      StepKeepsInvariant(w, l);
    } else {
      PassSoFar(w, run, k - 1);
      assert l.Op? && l.choice.ready;
      StepKeepsInvariant(u, l);
      StepAlone(w, u, l.choice);
    }
    hide Inv, Alone, Step, Settled;
  }

  // One pass left alone gets the services exactly when it can win them now; if it cannot, it at
  // least puts the id of a known endpoint on record, and changes nothing else at Restate.
  lemma PassLeaves(w: World, run: seq<Label>)
    requires Inv(w) && Settled(w) && PassAlone(w, run)
    ensures
      var u := Exec(w, run);
      && Inv(u) && u.phase.Idle? && u.rsd == w.rsd && u.discovery == w.discovery
      && u.server.invocations == w.server.invocations && Outcome(w, u)
  {
    PassSoFar(w, run, |run|);
    assert run[..|run|] == run;
    hide Inv, Exec, Settled, Outcome;
  }

  // Two passes of any reachable RestateDeployment, left alone with pods ready, cleanup included:
  // if every endpoint of ours exposes the same services, they end up routed to the current
  // version exactly when its endpoint is new, or it or a recorded sibling holds them; and if not,
  // Restate is as it was. No invocation is touched.
  lemma TwoPassesConverge(w0: World, before: seq<Label>, first: seq<Label>, second: seq<Label>)
    requires Initial(w0)
    requires
      var w := Exec(w0, before);
      && Consistent(w.server) && SameServices(w.server, Wanted(w))
      && PassAlone(w, first) && PassAlone(Exec(w, first), second)
    ensures
      var w := Exec(w0, before);
      var u := Exec(Exec(w, first), second);
      && (Won(u) <==> CanWin(w))
      && (!CanWin(w) ==> u.server == w.server && OnRecord(u))
      && u.server.invocations == w.server.invocations
  {
    InitialIsInvariant(w0);
    RunKeepsInvariant(w0, before);
    var w := Exec(w0, before);
    var v := Exec(w, first);
    PassLeaves(w, first);
    if WinsNow(w) {
      WonWinsNow(v);
      WinsNowCanWin(w);
    } else {
      LostFirst(w, v);
    }
    assert Settled(v);
    PassLeaves(v, second);
    hide Inv, Exec, PassAlone, SameServices;
  }

  lemma WinsNowCanWin(w: World)
    ensures WinsNow(w) ==> CanWin(w)
  {
  }

  // A pass that could not win now has made what it takes to win next.
  lemma LostFirst(w: World, v: World)
    requires !WinsNow(w) && SameSiblings(w, v) && v.server == w.server && OnRecord(v)
    requires Consistent(w.server) && SameServices(w.server, Wanted(w))
    ensures SameServices(v.server, Wanted(v)) && (WinsNow(v) <==> CanWin(w)) && !Won(v)
  {
    SiblingsStay(w, v);
    SiblingsStay(v, w);
    hide SiblingHolds, SameServices, ConfirmedLatest;
  }

  lemma SiblingsStay(w: World, v: World)
    requires SameSiblings(w, v) && v.server == w.server
    ensures SiblingHolds(w) ==> SiblingHolds(v)
  {
    if SiblingHolds(w) {
      var m :| m != w.rsd.desired && Recorded(w, m).Some? && HoldsThem(w, Recorded(w, m).value);
      assert Recorded(v, m) == Recorded(w, m) && HoldsThem(v, Recorded(v, m).value);
    }
  }
}
