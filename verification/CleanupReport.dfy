// What one run of the cleanup loop does to each version and reports back, stated apart from
// the loop (replicaset.rs, knative.rs).
module CleanupReport {
  import opened Base
  import opened Usage
  import opened Policy
  import opened Restate
  import opened Cleanup
  import opened Outcome
  import opened Lifecycle

  datatype BlockingVersion = BlockingVersion(name: Name, id: Option<DeploymentId>, usage: DeploymentUsage)

  datatype CleanupOutcome = CleanupOutcome(
    blocking: seq<BlockingVersion>,
    nextRemoval: Option<Time>,
    abandoned: seq<BlockingVersion>)

  function Lookup(versions: map<Name, Version>, n: Name): Option<Version> {
    if n in versions then Some(versions[n]) else None
  }

  // What one pass leaves of a version, given how it was judged.
  ghost predicate Handled(
      p: Pass, view: View, v: Version, kept: bool,
      left: Option<Version>, hpa: bool, hpaFailed: bool, since: Time, until: Time)
  {
    var had := v.name in view.hpas;
    var scales := p.flavour.ReplicaSets?;
    match Judge(p, view.usage, v)
    case Blocked(_) =>
      var removes := scales && !p.mode.IsDeleting() && !p.rsd.autoscaling && had;
      && left == Some(v.(removeAt := None, replicas := if removes then p.rsd.replicas else v.replicas))
      && (scales && p.mode.Rollout? && !hpaFailed ==> (hpa <==> p.rsd.autoscaling))
      && (!scales || p.mode.IsDeleting() ==> hpa == had)
    case Due =>
      && (hpa <==> had && !scales)
      && left == if kept then Some(if scales then v.(replicas := 0) else v) else None
    case Waiting(_) => left == Some(v) && hpa == had
    case Unstamped =>
      && left.Some? && left.value.removeAt.Some? && left.value.removeAt.value.At?
      && left.value == v.(removeAt := left.value.removeAt)
      && since + p.rsd.DrainDelay() <= left.value.removeAt.value.time <= until + p.rsd.DrainDelay()
      && hpa == had
  }

  predicate Outstanding(p: Pass, usage: UsageMap, v: Version) {
    Judge(p, usage, v).Waiting? || Judge(p, usage, v).Unstamped?
  }

  ghost predicate HasDeadline(versions: map<Name, Version>, n: Name, t: Time) {
    n in versions && versions[n].removeAt == Some(At(t))
  }

  // The soonest deadline among the versions still waiting one out, read after the pass.
  ghost predicate IsSoonest(next: Option<Time>, p: Pass, view: View, handled: seq<Name>, versions: map<Name, Version>) {
    && (next.None? ==> forall n :: n in handled && n in view.versions ==> !Outstanding(p, view.usage, view.versions[n]))
    && (next.Some? ==>
          && (exists n :: n in handled && n in view.versions && Outstanding(p, view.usage, view.versions[n])
                && HasDeadline(versions, n, next.value))
          && (forall n, t ::
                (n in handled && n in view.versions && Outstanding(p, view.usage, view.versions[n])
                 && HasDeadline(versions, n, t)) ==> next.value <= t))
  }

  // The versions Restate still needs, in the order they were visited.
  ghost function BlockingAmong(p: Pass, view: View, order: seq<Name>): seq<BlockingVersion> {
    if order == [] then []
    else
      var rest, n := BlockingAmong(p, view, order[..|order| - 1]), order[|order| - 1];
      if n in view.versions && Judge(p, view.usage, view.versions[n]).Blocked?
      then rest + [BlockingVersion(n, view.versions[n].id, Judge(p, view.usage, view.versions[n]).usage)]
      else rest
  }

  // The `i`-th version was torn down with invocations still running on it.
  ghost predicate Abandons(p: Pass, view: View, order: seq<Name>, i: nat)
    requires i < |order|
  {
    && order[i] in view.versions
    && Judge(p, view.usage, view.versions[order[i]]).Due? && !Kept(p, view, order, i)
    && UsageFor(view.usage, view.versions[order[i]]).Some?
    && UsageFor(view.usage, view.versions[order[i]]).value.InFlight() > 0
  }

  ghost function AbandonedAmong(p: Pass, view: View, order: seq<Name>, i: nat): seq<BlockingVersion>
    requires i <= |order|
  {
    if i == 0 then []
    else
      AbandonedAmong(p, view, order, i - 1)
      + if Abandons(p, view, order, i - 1)
        then [BlockingVersion(order[i - 1], view.versions[order[i - 1]].id,
                UsageFor(view.usage, view.versions[order[i - 1]]).value)]
        else []
  }

  // The loop tore the `i`-th version down, and it was registered.
  ghost predicate Deregisters(p: Pass, view: View, order: seq<Name>, i: nat)
    requires i < |order|
  {
    && order[i] in view.versions
    && Judge(p, view.usage, view.versions[order[i]]).Due? && !Kept(p, view, order, i)
    && UsageFor(view.usage, view.versions[order[i]]).Some?
  }

  // Restate no longer holds any of the first `i` versions that were torn down.
  ghost predicate DeregisteredAmong(p: Pass, view: View, order: seq<Name>, i: nat, server: Server)
    requires i <= |order|
  {
    forall j :: 0 <= j < i && Deregisters(p, view, order, j) ==> Removed(server, view.versions[order[j]].id.value)
  }

  lemma DeregistersWhen(p: Pass, view: View, order: seq<Name>, i: nat)
    requires i < |order| && order[i] in view.versions
    ensures Deregisters(p, view, order, i) ==>
      && Judge(p, view.usage, view.versions[order[i]]).Due? && !Kept(p, view, order, i)
      && UsageFor(view.usage, view.versions[order[i]]).Some?
  {
  }

  lemma DeregisteredStep(p: Pass, view: View, order: seq<Name>, i: nat, a: Server, b: Server)
    requires i < |order| && DeregisteredAmong(p, view, order, i, a)
    requires forall id :: Removed(a, id) ==> Removed(b, id)
    requires Deregisters(p, view, order, i) ==> Removed(b, view.versions[order[i]].id.value)
    ensures DeregisteredAmong(p, view, order, i + 1, b)
  {
    hide Removed;
  }

  // One version's turn is over and no other version was touched.
  ghost predicate Turned(
      p: Pass, view: View, order: seq<Name>, i: nat,
      va: map<Name, Version>, ha: set<Name>, fa: set<Name>,
      vb: map<Name, Version>, hb: set<Name>, fb: set<Name>, since: Time, until: Time)
    requires i < |order| && order[i] in view.versions
  {
    && (forall n :: n != order[i] ==>
          Lookup(vb, n) == Lookup(va, n) && (n in hb <==> n in ha) && (n in fb <==> n in fa))
    && Handled(p, view, view.versions[order[i]], Kept(p, view, order, i),
         Lookup(vb, order[i]), order[i] in hb, order[i] in fb, since, until)
  }

  // Where the loop stands: versions already visited are handled, the others untouched.
  ghost predicate Progress(
      p: Pass, view: View, order: seq<Name>, i: nat,
      versions: map<Name, Version>, hpas: set<Name>, failed: set<Name>, since: Time, until: Time)
    requires i <= |order|
  {
    && (forall j :: 0 <= j < i && order[j] in view.versions ==>
          Handled(p, view, view.versions[order[j]], Kept(p, view, order, j),
            Lookup(versions, order[j]), order[j] in hpas, order[j] in failed, since, until))
    && (forall n :: n !in order[..i] ==>
          && Lookup(versions, n) == Lookup(view.versions, n)
          && (n in hpas <==> n in view.hpas) && n !in failed)
  }

  lemma NextIsUntouched(
      p: Pass, view: View, order: seq<Name>, i: nat,
      versions: map<Name, Version>, hpas: set<Name>, failed: set<Name>, since: Time, until: Time)
    requires i < |order| && Distinct(order) && order[i] in view.versions
    requires Progress(p, view, order, i, versions, hpas, failed, since, until)
    ensures Lookup(versions, order[i]) == Some(view.versions[order[i]])
    ensures (order[i] in hpas <==> order[i] in view.hpas) && order[i] !in failed
  {
  }

  lemma ProgressStep(
      p: Pass, view: View, order: seq<Name>, i: nat,
      va: map<Name, Version>, ha: set<Name>, fa: set<Name>, a: Time,
      vb: map<Name, Version>, hb: set<Name>, fb: set<Name>, b: Time, since: Time)
    requires i < |order| && Distinct(order) && Progress(p, view, order, i, va, ha, fa, since, a) && a <= b
    requires order[i] in view.versions
    requires Turned(p, view, order, i, va, ha, fa, vb, hb, fb, since, b)
    ensures Progress(p, view, order, i + 1, vb, hb, fb, since, b)
  {
    hide Kept, DueBefore;
    forall j | 0 <= j < i + 1 && order[j] in view.versions
      ensures Handled(p, view, view.versions[order[j]], Kept(p, view, order, j),
                Lookup(vb, order[j]), order[j] in hb, order[j] in fb, since, b)
    {
    }
    forall n | n !in order[..i + 1]
      ensures Lookup(vb, n) == Lookup(view.versions, n) && (n in hb <==> n in view.hpas) && n !in fb
    {
      assert order[..i + 1] == order[..i] + [order[i]];
    }
  }

  lemma ProgressLasts(
      p: Pass, view: View, order: seq<Name>,
      versions: map<Name, Version>, hpas: set<Name>, failed: set<Name>, since: Time, a: Time, b: Time)
    requires Progress(p, view, order, |order|, versions, hpas, failed, since, a) && a <= b
    ensures Progress(p, view, order, |order|, versions, hpas, failed, since, b)
  {
    hide Kept, DueBefore;
    forall j | 0 <= j < |order| && order[j] in view.versions
      ensures Handled(p, view, view.versions[order[j]], Kept(p, view, order, j),
                Lookup(versions, order[j]), order[j] in hpas, order[j] in failed, since, b)
    {
    }
  }

  lemma SoonestStep(
      next: Option<Time>, p: Pass, view: View, order: seq<Name>, i: nat,
      va: map<Name, Version>, vb: map<Name, Version>, t: Option<Time>)
    requires i < |order| && Distinct(order) && order[i] in view.versions
    requires IsSoonest(next, p, view, order[..i], va)
    requires forall n :: n != order[i] ==> Lookup(vb, n) == Lookup(va, n)
    requires t.Some? <==> Outstanding(p, view.usage, view.versions[order[i]])
    requires t.Some? ==> HasDeadline(vb, order[i], t.value)
    ensures IsSoonest(if t.Some? then Sooner(next, t.value) else next, p, view, order[..i + 1], vb)
  {
    hide Outstanding;
    assert order[..i + 1] == order[..i] + [order[i]];
    assert order[i] !in order[..i];
    forall n, u | n in order[..i] ensures HasDeadline(vb, n, u) == HasDeadline(va, n, u) {
      assert Lookup(vb, n) == Lookup(va, n);
    }
  }

  // What the turn of a version that is still active writes and counts.
  lemma ActiveTurn(p: Pass, view: View, order: seq<Name>, i: nat)
    requires i < |order| && order[i] in view.versions && view.versions[order[i]].name == order[i]
    requires Judge(p, view.usage, view.versions[order[i]]).Blocked?
    ensures
      var v := view.versions[order[i]];
      && WritesFrom(p, view, order, i) ==
         ActiveHpaWrites(p, view, v.name) + (if v.removeAt.Some? then [ClearDeadline(v.name)] else [])
         + WritesFrom(p, view, order, i + 1)
      && KeptBefore(p, view, order, i + 1) == KeptBefore(p, view, order, i)
      && BlockingAmong(p, view, order[..i + 1]) ==
         BlockingAmong(p, view, order[..i])
         + [BlockingVersion(v.name, v.id, Judge(p, view.usage, v).usage)]
      && AbandonedAmong(p, view, order, i + 1) == AbandonedAmong(p, view, order, i)
      && !Outstanding(p, view.usage, v)
  {
    WritesUnfold(p, view, order, i);
    CounterDecides(p, view, order, i);
    assert order[..i + 1][..i] == order[..i];
  }

  lemma DueTurn(p: Pass, view: View, order: seq<Name>, i: nat)
    requires i < |order| && order[i] in view.versions && view.versions[order[i]].name == order[i]
    requires Judge(p, view.usage, view.versions[order[i]]).Due?
    ensures
      var v := view.versions[order[i]];
      var tear := if Kept(p, view, order, i) then [] else TearDownWrites(view, v);
      && WritesFrom(p, view, order, i) == ScaleDownWrites(p, view, v) + (tear + WritesFrom(p, view, order, i + 1))
      && (RetainForRollback(p.mode, KeptBefore(p, view, order, i), p.rsd.revisionHistoryLimit) <==> Kept(p, view, order, i))
      && KeptBefore(p, view, order, i + 1)
         == KeptBefore(p, view, order, i) + (if Kept(p, view, order, i) then 1 else 0)
      && BlockingAmong(p, view, order[..i + 1]) == BlockingAmong(p, view, order[..i])
      && !Outstanding(p, view.usage, v)
  {
    WritesUnfold(p, view, order, i);
    CounterDecides(p, view, order, i);
    assert order[..i + 1][..i] == order[..i];
  }

  lemma DueTurnAbandons(p: Pass, view: View, order: seq<Name>, i: nat)
    requires i < |order| && order[i] in view.versions && view.versions[order[i]].name == order[i]
    requires Judge(p, view.usage, view.versions[order[i]]).Due?
    ensures
      var v := view.versions[order[i]];
      var deployment := UsageFor(view.usage, v);
      && AbandonedAmong(p, view, order, i + 1) ==
         AbandonedAmong(p, view, order, i)
         + if !Kept(p, view, order, i) && deployment.Some? && deployment.value.InFlight() > 0
           then [BlockingVersion(v.name, v.id, deployment.value)] else []
  {
  }

  lemma WaitingTurn(p: Pass, view: View, order: seq<Name>, i: nat)
    requires i < |order| && order[i] in view.versions && view.versions[order[i]].name == order[i]
    requires Outstanding(p, view.usage, view.versions[order[i]])
    ensures
      var v := view.versions[order[i]];
      && WritesFrom(p, view, order, i) ==
         (if Judge(p, view.usage, v).Waiting? then [] else [StampDeadline(v.name, p.rsd.DrainDelay())])
         + WritesFrom(p, view, order, i + 1)
      && KeptBefore(p, view, order, i + 1) == KeptBefore(p, view, order, i)
      && BlockingAmong(p, view, order[..i + 1]) == BlockingAmong(p, view, order[..i])
      && AbandonedAmong(p, view, order, i + 1) == AbandonedAmong(p, view, order, i)
  {
    WritesUnfold(p, view, order, i);
    CounterDecides(p, view, order, i);
    assert order[..i + 1][..i] == order[..i];
  }

  // The branches of the loop are the verdicts.
  lemma BranchesJudge(p: Pass, usage: UsageMap, v: Version)
    ensures
      var deployment := UsageFor(usage, v);
      var removeAt := if v.removeAt.Some? && v.removeAt.value.At? then Some(v.removeAt.value.time) else None;
      var inPast := (removeAt.Some? && removeAt.value < p.now) || p.mode.SkipsDrainDelay();
      Judge(p, usage, v) ==
        if deployment.Some? && deployment.value.IsActive(p.mode) then Blocked(deployment.value)
        else if inPast || deployment.None? then Due
        else if removeAt.Some? then Waiting(removeAt.value)
        else Unstamped
    ensures Outstanding(p, usage, v) <==> Judge(p, usage, v).Waiting? || Judge(p, usage, v).Unstamped?
  {
  }

  lemma NothingVisited(p: Pass, view: View, order: seq<Name>, versions: map<Name, Version>, hpas: set<Name>, now: Time)
    requires view.versions == versions && view.hpas == hpas
    ensures WritesFrom(p, view, order, 0) == PassWrites(p, view, order, 0)
    ensures KeptBefore(p, view, order, 0) == 0
    ensures Progress(p, view, order, 0, versions, hpas, {}, now, now)
    ensures BlockingAmong(p, view, order[..0]) == [] && AbandonedAmong(p, view, order, 0) == []
    ensures IsSoonest(None, p, view, order[..0], versions)
  {
    assert order[0..] == order;
  }

  lemma EverythingVisited(p: Pass, view: View, order: seq<Name>)
    ensures WritesFrom(p, view, order, |order|) == [] && order[..|order|] == order
  {
  }

  // One more version is visited.
  lemma VisitStep(
      p: Pass, view: View, order: seq<Name>, i: nat,
      va: map<Name, Version>, ha: set<Name>, fa: set<Name>, a: Time,
      vb: map<Name, Version>, hb: set<Name>, fb: set<Name>, b: Time, since: Time,
      next: Option<Time>, t: Option<Time>)
    requires i < |order| && Distinct(order) && order[i] in view.versions && a <= b
    requires Progress(p, view, order, i, va, ha, fa, since, a)
    requires Turned(p, view, order, i, va, ha, fa, vb, hb, fb, since, b)
    requires IsSoonest(next, p, view, order[..i], va)
    requires t.Some? <==> Outstanding(p, view.usage, view.versions[order[i]])
    requires t.Some? ==> HasDeadline(vb, order[i], t.value)
    ensures Progress(p, view, order, i + 1, vb, hb, fb, since, b)
    ensures IsSoonest(if t.Some? then Sooner(next, t.value) else next, p, view, order[..i + 1], vb)
  {
    hide Progress, IsSoonest, Distinct, Handled, Outstanding, Kept, HasDeadline, Sooner;
    ProgressStep(p, view, order, i, va, ha, fa, a, vb, hb, fb, b, since);
    SoonestStep(next, p, view, order, i, va, vb, t);
  }

  // With only versions that block, the pass comes back on a short poll.
  ghost predicate NextRemovalFits(
      outcome: CleanupOutcome, p: Pass, view: View, order: seq<Name>, versions: map<Name, Version>, now: Time) {
    if outcome.blocking != [] && (forall n :: n in order && n in view.versions ==> !Outstanding(p, view.usage, view.versions[n]))
    then outcome.nextRemoval == Some(now + 10 * SECOND)
    else IsSoonest(outcome.nextRemoval, p, view, order, versions)
  }

  // What a pass over `order` returns.
  ghost predicate Reports(
      outcome: CleanupOutcome, p: Pass, view: View, order: seq<Name>, versions: map<Name, Version>, now: Time) {
    && outcome.blocking == BlockingAmong(p, view, order)
    && outcome.abandoned == AbandonedAmong(p, view, order, |order|)
    && NextRemovalFits(outcome, p, view, order, versions, now)
  }

  lemma ReportsSoonestOrPoll(
      next: Option<Time>, outcome: CleanupOutcome, p: Pass, view: View, order: seq<Name>,
      versions: map<Name, Version>, now: Time)
    requires IsSoonest(next, p, view, order, versions)
    requires outcome.blocking == BlockingAmong(p, view, order)
    requires outcome.abandoned == AbandonedAmong(p, view, order, |order|)
    requires outcome.nextRemoval == if outcome.blocking != [] && next.None? then Some(now + 10 * SECOND) else next
    ensures Reports(outcome, p, view, order, versions, now)
  {
  }

  lemma ScaleDownParts(p: Pass, view: View, v: Version, rest: seq<Write>)
    ensures ScaleDownWrites(p, view, v) + rest ==
      if p.flavour.Configurations? then rest
      else
        var scale := if v.replicas > 0 then [ScaleToZero(v.name)] else [];
        if v.name in view.hpas then [DeleteHpa(v.name)] + (scale + rest) else scale + rest
  {
    var scale := if v.replicas > 0 then [ScaleToZero(v.name)] else [];
    assert [] + scale == scale && [] + rest == rest;
  }

  lemma TearDownParts(view: View, v: Version, rest: seq<Write>)
    ensures TearDownWrites(view, v) + rest ==
      if UsageFor(view.usage, v).Some? then [Cleanup.Deregister(v.name, v.id.value)] + ([DeleteVersion(v.name)] + rest)
      else [DeleteVersion(v.name)] + rest
  {
  }

  lemma ActiveIsTurned(
      p: Pass, view: View, order: seq<Name>, i: nat,
      va: map<Name, Version>, ha: set<Name>, fa: set<Name>,
      vb: map<Name, Version>, hb: set<Name>, hpaFailed: bool, since: Time, until: Time)
    requires i < |order| && order[i] in view.versions && view.versions[order[i]].name == order[i]
    requires Judge(p, view.usage, view.versions[order[i]]).Blocked?
    requires order[i] !in fa && (order[i] in ha <==> order[i] in view.hpas)
    requires
      var v := view.versions[order[i]];
      var writes := ActiveHpaWrites(p, view, v.name);
      && vb == va[v.name := v.(removeAt := None, replicas := if |writes| == 2 then p.rsd.replicas else v.replicas)]
      && hb == if writes == [] || hpaFailed then ha else if |writes| == 1 then ha + {v.name} else ha - {v.name}
    ensures Turned(p, view, order, i, va, ha, fa, vb, hb, if hpaFailed then fa + {order[i]} else fa, since, until)
  {
    hide Kept, DueBefore;
  }

  lemma DueIsTurned(
      p: Pass, view: View, order: seq<Name>, i: nat,
      va: map<Name, Version>, ha: set<Name>, fa: set<Name>,
      vb: map<Name, Version>, hb: set<Name>, since: Time, until: Time)
    requires i < |order| && order[i] in view.versions && view.versions[order[i]].name == order[i]
    requires Judge(p, view.usage, view.versions[order[i]]).Due?
    requires Lookup(va, order[i]) == Some(view.versions[order[i]]) && (order[i] in ha <==> order[i] in view.hpas)
    requires
      var v := view.versions[order[i]];
      var scaled := if p.flavour.ReplicaSets? then va[v.name := v.(replicas := 0)] else va;
      && vb == (if Kept(p, view, order, i) then scaled else scaled - {v.name})
      && hb == if p.flavour.ReplicaSets? then ha - {v.name} else ha
    ensures Turned(p, view, order, i, va, ha, fa, vb, hb, fa, since, until)
  {
    hide DueBefore;
  }

  lemma OutstandingIsTurned(
      p: Pass, view: View, order: seq<Name>, i: nat,
      va: map<Name, Version>, ha: set<Name>, fa: set<Name>,
      vb: map<Name, Version>, t: Time, since: Time, until: Time)
    requires i < |order| && order[i] in view.versions && view.versions[order[i]].name == order[i]
    requires Lookup(va, order[i]) == Some(view.versions[order[i]]) && (order[i] in ha <==> order[i] in view.hpas)
    requires
      var v := view.versions[order[i]];
      match Judge(p, view.usage, v)
      case Waiting(at) => t == at && vb == va
      case Unstamped => vb == va[v.name := v.(removeAt := Some(At(t)))] && since + p.rsd.DrainDelay() <= t <= until + p.rsd.DrainDelay()
      case _ => false
    ensures Turned(p, view, order, i, va, ha, fa, vb, ha, fa, since, until)
    ensures HasDeadline(vb, order[i], t)
  {
    hide Kept, DueBefore;
  }

  function Sooner(next: Option<Time>, t: Time): Option<Time> {
    if next.Some? && next.value <= t then next else Some(t)
  }

  // A deletion pass with nothing blocking and nothing to wait for found every version due.
  lemma ReleaseMeansSettled(
      p: Pass, view: View, order: seq<Name>, outcome: CleanupOutcome, versions: map<Name, Version>, now: Time)
    requires forall n :: n in order ==> n in view.versions
    requires outcome.blocking == BlockingAmong(p, view, order)
    requires NextRemovalFits(outcome, p, view, order, versions, now)
    ensures JobFor(p, view, order).settled <==> p.mode.IsDeleting() && outcome.blocking == [] && outcome.nextRemoval.None?
  {
    NothingBlocks(p, view, order);
    forall n | n in order
      ensures n in JobFor(p, view, order).due <==> !Judge(p, view.usage, view.versions[n]).Blocked? && !Outstanding(p, view.usage, view.versions[n])
    {
    }
    if JobFor(p, view, order).settled {
      forall n | n in order ensures !Judge(p, view.usage, view.versions[n]).Blocked? {
        assert n in JobFor(p, view, order).due;
      }
    }
  }

  lemma {:induction false} NothingBlocks(p: Pass, view: View, order: seq<Name>)
    ensures BlockingAmong(p, view, order) == [] <==>
              forall n :: n in order && n in view.versions ==> !Judge(p, view.usage, view.versions[n]).Blocked?
    decreases |order|
  {
    if order != [] {
      var before := order[..|order| - 1];
      NothingBlocks(p, view, before);
      assert order == before + [order[|order| - 1]];
    }
  }

  // Whether an old version should have an autoscaler after a rollout pass: an active one exactly
  // when autoscaling is configured, one waiting out its drain if it had one, and no other.
  predicate WantsHpa(p: Pass, view: View, v: Version) {
    match Judge(p, view.usage, v)
    case Blocked(_) => p.rsd.autoscaling
    case Due => false
    case _ => v.name in view.hpas
  }

  // Every version the pass saw has an autoscaler exactly when it should; the current one never.
  ghost predicate AutoscalersMatch(p: Pass, view: View, desired: Name, hpas: set<Name>) {
    forall n :: n in view.versions ==> (n in hpas <==> n != desired && WantsHpa(p, view, view.versions[n]))
  }

  lemma HandledAutoscaler(
      p: Pass, view: View, v: Version, kept: bool, left: Option<Version>, hpa: bool, since: Time, until: Time)
    requires p.flavour.ReplicaSets? && p.mode.Rollout? && Handled(p, view, v, kept, left, hpa, false, since, until)
    ensures hpa <==> WantsHpa(p, view, v)
  {
  }

  // After a rollout pass whose applies all succeeded the autoscalers agree with the spec.
  lemma AutoscalersAgree(
      p: Pass, view: View, order: seq<Name>, desired: Name,
      versions: map<Name, Version>, hpas: set<Name>, since: Time, until: Time)
    ensures
      && p.flavour.ReplicaSets? && p.mode.Rollout?
      && IsNewestFirst(order, view.versions, Some(desired)) && desired !in view.hpas
      && Progress(p, view, order, |order|, versions, hpas, {}, since, until)
      ==> AutoscalersMatch(p, view, desired, hpas)
  {
    if p.flavour.ReplicaSets? && p.mode.Rollout? && IsNewestFirst(order, view.versions, Some(desired))
       && desired !in view.hpas && Progress(p, view, order, |order|, versions, hpas, {}, since, until) {
      hide Kept, DueBefore, Judge, WantsHpa, Handled;
      forall n | n in view.versions ensures n in hpas <==> n != desired && WantsHpa(p, view, view.versions[n]) {
        if n == desired {
          assert n !in order[..|order|];
        } else {
          var j :| 0 <= j < |order| && order[j] == n;
          HandledAutoscaler(p, view, view.versions[n], Kept(p, view, order, j), Lookup(versions, n), n in hpas, since, until);
        }
      }
    }
  }

  // Work is abandoned only by a forced deletion.
  lemma {:induction false} AbandonsOnlyWhenForced(p: Pass, view: View, order: seq<Name>, i: nat)
    requires i <= |order| && AbandonedAmong(p, view, order, i) != []
    ensures p.mode.ForceDeleting?
  {
    if AbandonedAmong(p, view, order, i - 1) != [] {
      AbandonsOnlyWhenForced(p, view, order, i - 1);
    } else {
      assert Abandons(p, view, order, i - 1);
    }
  }
}
