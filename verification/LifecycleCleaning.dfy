// The cleanup phase of the lifecycle keeps the invariant: the writes a pass plans are safe when
// planned, and every one of them stays safe until it is issued.
module LifecycleCleaning {
  import opened Base
  import opened Usage
  import opened Policy
  import opened Restate
  import opened Cleanup
  import opened Lifecycle
  import opened LifecycleInvariant

  // --- Planning ---

  // The loop's write for a version says how it was judged.
  ghost predicate MatchesVerdict(x: Write, p: Pass, view: View) {
    && x.name in view.versions
    && var verdict := Judge(p, view.usage, view.versions[x.name]);
       match x
       case EnsureHpa(_) => verdict.Blocked?
       case RestoreScale(_, _) => verdict.Blocked?
       case ClearDeadline(_) => verdict.Blocked?
       case DeleteHpa(_) => verdict.Blocked? || verdict.Due?
       case ScaleToZero(_) => verdict.Due?
       case Deregister(n, id) => verdict.Due? && view.versions[n].id == Some(id)
       case DeleteVersion(_) => verdict.Due?
       case StampDeadline(_, delay) => verdict.Unstamped? && delay == p.rsd.DrainDelay()
       case _ => false
  }

  ghost predicate Named(view: View) {
    forall n :: n in view.versions ==> view.versions[n].name == n
  }

  lemma TurnMatchesVerdict(p: Pass, view: View, v: Version, h: nat)
    requires v.name in view.versions && view.versions[v.name] == v
    ensures forall x :: x in VersionWrites(p, view, v, h) ==> x.name == v.name && MatchesVerdict(x, p, view)
  {
    var turn := VersionWrites(p, view, v, h);
    match Judge(p, view.usage, v)
    case Due =>
      assert forall x :: x in turn ==> x in ScaleDownWrites(p, view, v) || x in TearDownWrites(view, v);
    case _ =>
  }

  lemma {:induction false} WritesMatchVerdicts(p: Pass, view: View, order: seq<Name>, h: nat)
    requires Named(view)
    ensures forall x :: x in PassWrites(p, view, order, h) ==> x.name in order && MatchesVerdict(x, p, view)
    decreases |order|
  {
    if order != [] {
      if order[0] !in view.versions {
        WritesMatchVerdicts(p, view, order[1..], h);
      } else {
        var v := view.versions[order[0]];
        TurnMatchesVerdict(p, view, v, h);
        WritesMatchVerdicts(p, view, order[1..], h + if Retains(p, view.usage, v, h) then 1 else 0);
      }
    }
  }

  lemma {:induction false} ActiveDeadlinesAreCleared(p: Pass, view: View, order: seq<Name>, h: nat, n: Name)
    requires Named(view) && n in order && n in view.versions
    requires Judge(p, view.usage, view.versions[n]).Blocked? && view.versions[n].removeAt.Some?
    ensures ClearDeadline(n) in PassWrites(p, view, order, h)
    decreases |order|
  {
    if order[0] !in view.versions {
      ActiveDeadlinesAreCleared(p, view, order[1..], h, n);
    } else {
      var v := view.versions[order[0]];
      var turn := VersionWrites(p, view, v, h);
      if order[0] == n {
        assert turn[|turn| - 1] == ClearDeadline(n);
      } else {
        ActiveDeadlinesAreCleared(p, view, order[1..], h + if Retains(p, view.usage, v, h) then 1 else 0, n);
      }
    }
  }

  // A deletion retains nothing: whatever is due is deleted.
  lemma {:induction false} DeletionsDeleteEverythingDue(p: Pass, view: View, order: seq<Name>, h: nat, n: Name)
    requires Named(view) && n in order && n in view.versions && p.mode.IsDeleting()
    requires Judge(p, view.usage, view.versions[n]).Due?
    ensures DeleteVersion(n) in PassWrites(p, view, order, h)
    decreases |order|
  {
    if order[0] !in view.versions {
      DeletionsDeleteEverythingDue(p, view, order[1..], h, n);
    } else {
      var v := view.versions[order[0]];
      var turn := VersionWrites(p, view, v, h);
      if order[0] == n {
        assert turn[|turn| - 1] == DeleteVersion(n);
      } else {
        DeletionsDeleteEverythingDue(p, view, order[1..], h + if Retains(p, view.usage, v, h) then 1 else 0, n);
      }
    }
  }

  ghost function HpasAfter(queue: seq<Write>, hpas: set<Name>): set<Name>
    decreases |queue|
  {
    if queue == [] then hpas else HpasAfter(queue[1..], Effect(View(map[], map[], hpas), queue[0], 0).hpas)
  }

  lemma {:induction false} ScalesDownFreelyConcat(a: seq<Write>, b: seq<Write>, hpas: set<Name>)
    requires ScalesDownFreely(a, hpas) && ScalesDownFreely(b, HpasAfter(a, hpas))
    ensures ScalesDownFreely(a + b, hpas)
    decreases |a|
  {
    if a == [] {
      assert a + b == b;
    } else {
      assert (a + b)[0] == a[0] && (a + b)[1..] == a[1..] + b;
      ScalesDownFreelyConcat(a[1..], b, Effect(View(map[], map[], hpas), a[0], 0).hpas);
    }
  }

  lemma {:induction false} HpasOfOthersUntouched(queue: seq<Write>, hpas: set<Name>, n: Name)
    requires forall x :: x in queue ==> x.name != n
    ensures n in HpasAfter(queue, hpas) <==> n in hpas
    decreases |queue|
  {
    if queue != [] {
      assert queue[0] in queue;
      HpasOfOthersUntouched(queue[1..], Effect(View(map[], map[], hpas), queue[0], 0).hpas, n);
    }
  }

  lemma TurnScalesDownFreely(p: Pass, view: View, v: Version, h: nat, hpas: set<Name>)
    requires v.name in hpas ==> v.name in view.hpas
    requires p.flavour.ReplicaSets?
    ensures ScalesDownFreely(VersionWrites(p, view, v, h), hpas)
  {
    var turn := VersionWrites(p, view, v, h);
    if Judge(p, view.usage, v).Due? {
      var tear := if Retains(p, view.usage, v, h) then [] else TearDownWrites(view, v);
      assert turn == ScaleDownWrites(p, view, v) + tear;
      assert NoScaleDown(tear);
      NoScaleDownIsFree(tear, HpasAfter(ScaleDownWrites(p, view, v), hpas));
      ScalesDownFreelyConcat(ScaleDownWrites(p, view, v), tear, hpas);
    } else {
      NoScaleDownIsFree(turn, hpas);
    }
  }

  ghost predicate NoScaleDown(queue: seq<Write>) {
    forall x :: x in queue ==> !x.ScaleToZero?
  }

  lemma {:induction false} NoScaleDownIsFree(queue: seq<Write>, hpas: set<Name>)
    requires NoScaleDown(queue)
    ensures ScalesDownFreely(queue, hpas)
    decreases |queue|
  {
    if queue != [] {
      assert queue[0] in queue;
      NoScaleDownIsFree(queue[1..], Effect(View(map[], map[], hpas), queue[0], 0).hpas);
    }
  }

  // A version's autoscaler goes before the version is scaled to zero.
  lemma {:induction false} PassScalesDownFreely(p: Pass, view: View, order: seq<Name>, h: nat, hpas: set<Name>)
    requires Named(view) && Distinct(order) && p.flavour.ReplicaSets?
    requires forall n :: n in order && n in hpas ==> n in view.hpas
    ensures ScalesDownFreely(PassWrites(p, view, order, h), hpas)
    decreases |order|
  {
    if order != [] {
      if order[0] !in view.versions {
        PassScalesDownFreely(p, view, order[1..], h, hpas);
      } else {
        var v := view.versions[order[0]];
        var turn := VersionWrites(p, view, v, h);
        TurnScalesDownFreely(p, view, v, h, hpas);
        TurnMatchesVerdict(p, view, v, h);
        forall n | n in order[1..] && n in HpasAfter(turn, hpas) ensures n in view.hpas {
          HpasOfOthersUntouched(turn, hpas, n);
        }
        var h' := h + if Retains(p, view.usage, v, h) then 1 else 0;
        PassScalesDownFreely(p, view, order[1..], h', HpasAfter(turn, hpas));
        ScalesDownFreelyConcat(turn, PassWrites(p, view, order[1..], h'), hpas);
      }
    }
  }

  ghost function EndpointsAfter(queue: seq<Write>, endpoints: map<Endpoint, DeploymentId>): map<Endpoint, DeploymentId>
    decreases |queue|
  {
    if queue == [] then endpoints
    else EndpointsAfter(queue[1..],
           if queue[0].Deregister? then map e | e in endpoints && endpoints[e] != queue[0].id :: endpoints[e]
           else endpoints)
  }

  lemma {:induction false} EndpointsOnlyShrink(queue: seq<Write>, endpoints: map<Endpoint, DeploymentId>)
    ensures forall e :: e in EndpointsAfter(queue, endpoints) ==>
              e in endpoints && EndpointsAfter(queue, endpoints)[e] == endpoints[e]
    decreases |queue|
  {
    if queue != [] {
      EndpointsOnlyShrink(queue[1..],
        if queue[0].Deregister? then map e | e in endpoints && endpoints[e] != queue[0].id :: endpoints[e] else endpoints);
    }
  }

  lemma {:induction false} DeregistersFirstConcat(a: seq<Write>, b: seq<Write>, endpoints: map<Endpoint, DeploymentId>)
    requires DeregistersFirst(a, endpoints) && DeregistersFirst(b, EndpointsAfter(a, endpoints))
    ensures DeregistersFirst(a + b, endpoints)
    decreases |a|
  {
    if a == [] {
      assert a + b == b;
    } else {
      assert (a + b)[0] == a[0] && (a + b)[1..] == a[1..] + b;
      DeregistersFirstConcat(a[1..], b,
        if a[0].Deregister? then map e | e in endpoints && endpoints[e] != a[0].id :: endpoints[e] else endpoints);
    }
  }

  lemma {:induction false} NoDeletionDeregistersFirst(queue: seq<Write>, endpoints: map<Endpoint, DeploymentId>)
    requires forall x :: x in queue ==> !x.DeleteVersion?
    ensures DeregistersFirst(queue, endpoints)
    decreases |queue|
  {
    if queue != [] {
      assert queue[0] in queue;
      NoDeletionDeregistersFirst(queue[1..],
        if queue[0].Deregister? then map e | e in endpoints && endpoints[e] != queue[0].id :: endpoints[e] else endpoints);
    }
  }

  // What is registered at a version's endpoint is on the version and in the usage snapshot.
  ghost predicate KnowsEndpoint(view: View, endpoints: map<Endpoint, DeploymentId>, n: Name) {
    Own(n) in endpoints && n in view.versions ==>
      UsageFor(view.usage, view.versions[n]).Some? && view.versions[n].id == Some(endpoints[Own(n)])
  }

  lemma TurnDeregistersFirst(p: Pass, view: View, v: Version, h: nat, endpoints: map<Endpoint, DeploymentId>)
    requires v.name in view.versions && view.versions[v.name] == v && KnowsEndpoint(view, endpoints, v.name)
    ensures DeregistersFirst(VersionWrites(p, view, v, h), endpoints)
  {
    var turn := VersionWrites(p, view, v, h);
    if Judge(p, view.usage, v).Due? && !Retains(p, view.usage, v, h) {
      var down, tear := ScaleDownWrites(p, view, v), TearDownWrites(view, v);
      assert turn == down + tear;
      NoDeletionDeregistersFirst(down, endpoints);
      EndpointsOnlyShrink(down, endpoints);
      var left := EndpointsAfter(down, endpoints);
      if UsageFor(view.usage, v).Some? {
        assert tear == [Deregister(v.name, v.id.value), DeleteVersion(v.name)];
        assert tear[1..] == [DeleteVersion(v.name)];
        assert DeregistersFirst(tear[1..], map e | e in left && left[e] != v.id.value :: left[e]);
      } else {
        assert tear == [DeleteVersion(v.name)];
        assert DeregistersFirst(tear, left);
      }
      DeregistersFirstConcat(down, tear, endpoints);
    } else {
      NoDeletionDeregistersFirst(turn, endpoints);
    }
  }

  // A version object outlives the registration of its endpoint.
  lemma {:induction false} PassDeregistersFirst(
      p: Pass, view: View, order: seq<Name>, h: nat, endpoints: map<Endpoint, DeploymentId>)
    requires Named(view)
    requires forall n :: n in order ==> KnowsEndpoint(view, endpoints, n)
    ensures DeregistersFirst(PassWrites(p, view, order, h), endpoints)
    decreases |order|
  {
    if order != [] {
      assert forall n :: n in order[1..] ==> n in order;
      if order[0] !in view.versions {
        PassDeregistersFirst(p, view, order[1..], h, endpoints);
      } else {
        var v := view.versions[order[0]];
        var turn := VersionWrites(p, view, v, h);
        TurnDeregistersFirst(p, view, v, h, endpoints);
        EndpointsOnlyShrink(turn, endpoints);
        var h' := h + if Retains(p, view.usage, v, h) then 1 else 0;
        PassDeregistersFirst(p, view, order[1..], h', EndpointsAfter(turn, endpoints));
        DeregistersFirstConcat(turn, PassWrites(p, view, order[1..], h'), endpoints);
      }
    }
  }

  lemma PlannedDueIsSafe(w: World, n: Name)
    requires Inv(w) && w.phase.Planning? && n in w.versions && Some(n) != w.phase.except
    requires
      var p := Pass(ReplicaSets, w.phase.rsd, w.phase.mode, w.clock);
      Judge(p, w.phase.snapshot, w.versions[n]).Due?
    ensures DueIsSafe(w, w.phase.mode, n)
  {
  }

  // What the invariant asks of the queue a pass plans, part by part.
  lemma PlannedQueueIsClassified(w: World, order: seq<Name>)
    requires Inv(w) && w.phase.Planning? && IsNewestFirst(order, w.versions, w.phase.except)
    ensures
      var job := PlannedJob(w, order);
      forall x :: x in job.queue ==>
        Classified(x, w.phase.rsd, job.active, job.due, job.unstamped, w.server.minted)
  {
    var p := Pass(ReplicaSets, w.phase.rsd, w.phase.mode, w.clock);
    WritesMatchVerdicts(p, View(w.versions, w.phase.snapshot, w.hpas), order, 0);
  }

  lemma PlannedQueueHandlesEveryone(w: World, order: seq<Name>)
    requires Inv(w) && w.phase.Planning? && IsNewestFirst(order, w.versions, w.phase.except)
    ensures
      var job := PlannedJob(w, order);
      && (forall n :: n in job.due ==> DueIsSafe(w, w.phase.mode, n))
      && (forall n :: n in job.active && n in w.versions && w.versions[n].removeAt.Some? ==>
            ClearDeadline(n) in job.queue)
      && (job.settled ==> forall n :: n in w.versions ==> DeleteVersion(n) in job.queue)
  {
    var p := Pass(ReplicaSets, w.phase.rsd, w.phase.mode, w.clock);
    var view := View(w.versions, w.phase.snapshot, w.hpas);
    var job := PlannedJob(w, order);
    forall n | n in job.due ensures DueIsSafe(w, w.phase.mode, n) {
      PlannedDueIsSafe(w, n);
    }
    forall n | n in job.active && n in w.versions && w.versions[n].removeAt.Some?
      ensures ClearDeadline(n) in job.queue
    {
      ActiveDeadlinesAreCleared(p, view, order, 0, n);
    }
    if job.settled {
      forall n | n in w.versions ensures DeleteVersion(n) in job.queue {
        assert n in order && n in job.due;
        DeletionsDeleteEverythingDue(p, view, order, 0, n);
      }
    }
  }

  ghost function PlannedJob(w: World, order: seq<Name>): Job
    requires w.phase.Planning?
  {
    JobFor(Pass(ReplicaSets, w.phase.rsd, w.phase.mode, w.clock), View(w.versions, w.phase.snapshot, w.hpas), order)
  }

  lemma PlannedJobIsOk(w: World, order: seq<Name>)
    requires Inv(w) && w.phase.Planning? && IsNewestFirst(order, w.versions, w.phase.except)
    ensures JobOk(w, w.phase.rsd, w.phase.mode, PlannedJob(w, order))
  {
    var p := Pass(ReplicaSets, w.phase.rsd, w.phase.mode, w.clock);
    var view := View(w.versions, w.phase.snapshot, w.hpas);
    PlannedQueueIsClassified(w, order);
    PlannedQueueHandlesEveryone(w, order);
    PassScalesDownFreely(p, view, order, 0, w.hpas);
    assert forall n :: n in order ==> KnowsEndpoint(view, Tracked(w), n);
    PassDeregistersFirst(p, view, order, 0, Tracked(w));
  }

  lemma PlanningStep(w: World, c: Choice)
    requires w.phase.Planning? && IsNewestFirst(c.order, w.versions, w.phase.except)
    ensures Step(w, Op(c)) == w.(phase := Cleaning(w.phase.rsd, w.phase.mode, PlannedJob(w, c.order)))
  {
  }

  lemma PlanningKeepsInvariant(w: World, c: Choice)
    requires Inv(w) && w.phase.Planning?
    ensures Inv(Step(w, Op(c)))
  {
    if IsNewestFirst(c.order, w.versions, w.phase.except) {
      PlannedJobIsOk(w, c.order);
      PlanningStep(w, c);
      var u := Step(w, Op(c));
      JobOkIsAboutTheWorld(w, u, w.phase.rsd, w.phase.mode, PlannedJob(w, c.order));
      PhaseChangeKeepsRest(w, u);
    }
  }

  // Whether a job is in order does not depend on the phase the world is in.
  lemma JobOkIsAboutTheWorld(w: World, u: World, rsd: Rsd, mode: CleanupMode, job: Job)
    requires JobOk(w, rsd, mode, job) && u == w.(phase := u.phase)
    ensures JobOk(u, rsd, mode, job)
  {
    assert forall n :: DueIsSafe(w, mode, n) ==> DueIsSafe(u, mode, n);
  }

  // --- Issuing the queue ---

  lemma DeregisterLeavesOthersQuiet(s: Server, id: DeploymentId, other: DeploymentId)
    requires !Needed(s, other)
    ensures !Needed(Restate.Deregister(s, id), other)
  {
    var t := Restate.Deregister(s, id);
    if other in t.deployments {
      assert !IsLatest(s, other);
      assert forall v :: v in t.routes ==> v in s.routes && t.routes[v] == s.routes[v];
    }
  }

  lemma {:induction false} FewerHpasStillScaleFreely(queue: seq<Write>, a: set<Name>, b: set<Name>)
    requires ScalesDownFreely(queue, a) && b <= a
    ensures ScalesDownFreely(queue, b)
    decreases |queue|
  {
    if queue != [] {
      FewerHpasStillScaleFreely(queue[1..],
        Effect(View(map[], map[], a), queue[0], 0).hpas,
        Effect(View(map[], map[], b), queue[0], 0).hpas);
    }
  }

  ghost predicate CleaningWrite(x: Write) {
    !x.Create? && !x.RecordId?
  }

  lemma ApplyFacts(w: World, x: Write)
    requires CleaningWrite(x) && IdsAreOwn(w)
    ensures
      var u := Apply(w, x);
      && (forall n :: n in u.versions <==> n in w.versions && !(x.DeleteVersion? && n == x.name))
      && (forall n :: n in u.versions && n != x.name ==> u.versions[n] == w.versions[n])
      && (forall n :: n in u.versions ==>
            && u.versions[n].name == w.versions[n].name && u.versions[n].id == w.versions[n].id
            && (!x.StampDeadline? && !x.ClearDeadline? ==> u.versions[n].removeAt == w.versions[n].removeAt))
  {
  }

  lemma ApplyKeepsEndpoints(w: World, x: Write)
    requires Consistent(w.server) && EndpointsRecorded(w) && IdsAreOwn(w) && !w.phase.Recording?
    requires CleaningWrite(x)
    requires x.DeleteVersion? ==> Own(x.name) !in Tracked(w)
    ensures
      var u := Apply(w, x);
      && Consistent(u.server) && EndpointsRecorded(u) && IdsAreOwn(u)
      && u.server.minted == w.server.minted
      && (forall n :: Own(n) in u.server.endpoints ==>
            Own(n) in w.server.endpoints && u.server.endpoints[Own(n)] == w.server.endpoints[Own(n)])
  {
    ApplyFacts(w, x);
    if x.Deregister? {
      DeregisterKeepsConsistency(w.server, x.id);
    }
  }

  lemma ApplyKeepsDeadlines(w: World, x: Write)
    requires DeadlinesStamped(w) && IdsAreOwn(w) && CleaningWrite(x)
    ensures DeadlinesStamped(Apply(w, x))
  {
    ApplyFacts(w, x);
  }

  lemma ApplyKeepsDueSafe(w: World, x: Write, mode: CleanupMode, n: Name)
    requires Consistent(w.server) && EndpointsRecorded(w) && IdsAreOwn(w) && !w.phase.Recording?
    requires CleaningWrite(x)
    requires x.DeleteVersion? ==> Own(x.name) !in Tracked(w)
    requires x.StampDeadline? || x.ClearDeadline? ==> n != x.name
    requires DueIsSafe(w, mode, n)
    ensures DueIsSafe(Apply(w, x), mode, n)
  {
    ApplyFacts(w, x);
    ApplyKeepsEndpoints(w, x);
    var u := Apply(w, x);
    if Own(n) in u.server.endpoints && n !in w.lost && mode.Rollout? && x.Deregister? {
      DeregisterLeavesOthersQuiet(w.server, x.id, w.server.endpoints[Own(n)]);
    }
  }

  lemma ApplyKeepsClasses(w: World, x: Write, rsd: Rsd, mode: CleanupMode, job: Job)
    requires IdsAreOwn(w) && CleaningWrite(x)
    requires ClassesDisjoint(w, rsd, mode, job)
    requires Classified(x, rsd, job.active, job.due, job.unstamped, w.server.minted)
    ensures ClassesDisjoint(Apply(w, x), rsd, mode, job)
  {
    ApplyFacts(w, x);
  }

  lemma ApplyKeepsClears(w: World, x: Write, rsd: Rsd, mode: CleanupMode, job: Job)
    requires IdsAreOwn(w) && job.queue != [] && x == job.queue[0]
    requires ClassesDisjoint(w, rsd, mode, job) && ClearsQueued(w, job) && SettledDeletesAll(w, mode, job)
    requires Classified(x, rsd, job.active, job.due, job.unstamped, w.server.minted)
    ensures ClearsQueued(Apply(w, x), job.(queue := job.queue[1..]))
    ensures SettledDeletesAll(Apply(w, x), mode, job.(queue := job.queue[1..]))
  {
    ApplyFacts(w, x);
    assert forall y :: y in job.queue && y != x ==> y in job.queue[1..];
  }

  // The queue after its head was issued, seen from the world the head left.
  lemma ApplyKeepsJob(w: World, x: Write, rsd: Rsd, mode: CleanupMode, job: Job)
    requires Consistent(w.server) && EndpointsRecorded(w) && IdsAreOwn(w) && !w.phase.Recording?
    requires JobOk(w, rsd, mode, job) && job.queue != [] && x == job.queue[0]
    ensures JobOk(Apply(w, x), rsd, mode, job.(queue := job.queue[1..]))
  {
    var rest := job.queue[1..];
    assert x in job.queue && Classified(x, rsd, job.active, job.due, job.unstamped, w.server.minted);
    var u := Apply(w, x);
    ApplyKeepsEndpoints(w, x);
    ApplyKeepsClasses(w, x, rsd, mode, job);
    ApplyKeepsClears(w, x, rsd, mode, job);
    assert QueueClassified(u, rsd, job.(queue := rest)) by {
      assert forall y :: y in rest ==> y in job.queue;
    }
    forall n | n in job.due ensures DueIsSafe(u, mode, n) {
      ApplyKeepsDueSafe(w, x, mode, n);
    }
    FewerHpasStillScaleFreely(rest, Effect(View(map[], map[], w.hpas), x, 0).hpas, u.hpas);
    FewerEndpointsStillDeregisterFirst(rest,
      if x.Deregister? then map e | e in Tracked(w) && Tracked(w)[e] != x.id :: Tracked(w)[e] else Tracked(w),
      Tracked(u));
  }

  // A refused autoscaler leaves the world alone, and the rest of the queue as safe as before.
  lemma SkipKeepsJob(w: World, rsd: Rsd, mode: CleanupMode, job: Job)
    requires JobOk(w, rsd, mode, job) && job.queue != [] && job.queue[0].EnsureHpa?
    ensures JobOk(w, rsd, mode, job.(queue := job.queue[1..]))
  {
    var x, rest := job.queue[0], job.queue[1..];
    assert forall y :: y in rest ==> y in job.queue;
    assert forall y :: y in job.queue && y != x ==> y in rest;
    FewerHpasStillScaleFreely(rest, Effect(View(map[], map[], w.hpas), x, 0).hpas, w.hpas);
  }

  lemma CleaningStep(w: World, c: Choice)
    requires w.phase.Cleaning? && w.phase.job.queue != []
    ensures
      var job := w.phase.job;
      var rest := w.(phase := Cleaning(w.phase.rsd, w.phase.mode, job.(queue := job.queue[1..])));
      Step(w, Op(c)) ==
        if job.queue[0].EnsureHpa? && !c.hpaApplied then rest else Apply(rest, job.queue[0])
  {
  }

  lemma CleaningKeepsInvariant(w: World, c: Choice)
    requires Inv(w) && w.phase.Cleaning? && w.phase.job.queue != []
    ensures Inv(Step(w, Op(c)))
  {
    var rsd, mode, job := w.phase.rsd, w.phase.mode, w.phase.job;
    var x := job.queue[0];
    assert x in job.queue && Classified(x, rsd, job.active, job.due, job.unstamped, w.server.minted);
    var left := job.(queue := job.queue[1..]);
    var rest := w.(phase := Cleaning(rsd, mode, left));
    CleaningStep(w, c);
    PhaseChangeKeepsRest(w, rest);
    if x.EnsureHpa? && !c.hpaApplied {
      SkipKeepsJob(w, rsd, mode, job);
      JobOkIsAboutTheWorld(w, rest, rsd, mode, left);
    } else {
      JobOkIsAboutTheWorld(w, rest, rsd, mode, job);
      ApplyKeepsEndpoints(rest, x);
      ApplyKeepsDeadlines(rest, x);
      ApplyKeepsJob(rest, x, rsd, mode, job);
      assert Apply(rest, x).phase == rest.phase;
    }
  }

  // A completed pass leaves no deadline on a version it found active, and a deletion pass that
  // releases the finalizer leaves no version.
  lemma CompletionKeepsInvariant(w: World, c: Choice)
    requires Inv(w) && w.phase.Cleaning? && w.phase.job.queue == []
    ensures Inv(Step(w, Op(c)))
  {
    var job := w.phase.job;
    assert forall n :: n in job.active && n in w.versions ==> w.versions[n].removeAt.None?;
    assert job.settled ==> w.versions == map[];
  }
}
