// The part of the RestateCluster reconciler that changes a StatefulSet's storage, one API call
// at a time (compute.rs). Every method extends one run of the storage-change protocol.
module StatefulSetReconciler {
  import opened Base
  import opened ServerSideApply
  import opened StorageChange

  datatype Outcome =
    | Failed
    // waiting for the old StatefulSet to be deleted
    | Recreating
    | Applied

  ghost predicate Uninterrupted(a: seq<Label>, b: seq<Label>) {
    a <= b && forall k :: |a| <= k < |b| ==> !b[k].Crash? && !b[k].Edit? && !b[k].Begin?
  }

  lemma UninterruptedOn(a: seq<Label>, b: seq<Label>, c: seq<Label>)
    requires Uninterrupted(a, b) && Uninterrupted(b, c)
    ensures Uninterrupted(a, c)
  {
  }

  lemma UninterruptedExtends(a: seq<Label>, b: seq<Label>)
    ensures Uninterrupted(a, a)
    ensures Uninterrupted(a, b) ==> a <= b
  {
  }

  lemma BeginsOnce(a: seq<Label>, b: seq<Label>)
    requires Uninterrupted(a + [Begin], b)
    ensures a < b && forall k :: |a| < k < |b| ==> !b[k].Begin?
  {
  }

  lemma UninterruptedByOne(a: seq<Label>, l: Label)
    requires !l.Crash? && !l.Edit? && !l.Begin?
    ensures Uninterrupted(a, a + [l])
  {
  }

  // A StatefulSet stays as it is, or goes.
  ghost predicate StaysOrGoes(was: Option<StatefulSet>, now: Option<StatefulSet>) {
    now == was || now.None?
  }

  ghost predicate HasStorage(ss: Option<StatefulSet>, storage: Storage) {
    ss.Some? ==> ss.value.storage == storage
  }

  lemma AppliesStrategy(w: Cluster, strategy: string)
    requires |w.sets| > 0 && ApplySet(w, StrategyKeeper, None, map[STRATEGY := strategy], false).Some?
    ensures
      var u := ApplySet(w, StrategyKeeper, None, map[STRATEGY := strategy], false).value;
      && |u.sets| > 0 && Live(u).Some? && Live(u).value.Strategy() == strategy
      && Live(w).Some? && Live(u).value.storage == Live(w).value.storage
  {
  }

  lemma AppliesStorage(w: Cluster, storage: Storage, config: map<Key, string>)
    requires |w.sets| > 0 && ApplySet(w, Operator, Some(storage), config, true).Some?
    ensures
      var u := ApplySet(w, Operator, Some(storage), config, true).value;
      |u.sets| == |w.sets| + 1 && Live(u).Some? && Live(u).value.storage == storage
  {
  }

  // --- What the steps of a run did ---

  ghost function At(w0: Cluster, run: seq<Label>, k: nat): (w: Cluster)
    requires WellFormed(w0) && k <= |run|
    ensures WellFormed(w)
  {
    Exec(w0, run[..k])
  }

  // An apply of the StatefulSet that the API server accepted.
  ghost predicate Accepts(w: Cluster, u: Cluster)
    requires WellFormed(w) && WellFormed(u)
  {
    w.phase.Applying? && |u.sets| == |w.sets| + 1 && Live(u).Some? && Live(u).value.storage == w.desired
  }

  // A delete of the compared StatefulSet, which leaves it to go without its pods.
  ghost predicate Orphans(w: Cluster, u: Cluster, uid: nat)
    requires WellFormed(w) && WellFormed(u)
  {
    && w.phase == Deleting(uid) && Live(w).Some? && Live(w).value.uid == uid
    && Live(u) == Some(Live(w).value.(deleting := Some(Orphan)))
  }

  // A call that the API server refused.
  ghost predicate Refuses(w: Cluster, u: Cluster) {
    (w.phase.Deleting? || w.phase.Applying? || w.phase.KeepingStrategy?) && u == w.(phase := Idle)
  }

  ghost predicate AppliedAt(w0: Cluster, run: seq<Label>, k: nat)
    requires WellFormed(w0)
  {
    k < |run| && run[k].Op? && Accepts(At(w0, run, k), At(w0, run, k + 1))
  }

  ghost predicate DeletedAt(w0: Cluster, run: seq<Label>, k: nat, uid: nat)
    requires WellFormed(w0)
  {
    k < |run| && run[k].Op? && Orphans(At(w0, run, k), At(w0, run, k + 1), uid)
  }

  // Step `k` compares a cached StatefulSet that is going, or one with other storage, which the
  // last step deletes.
  ghost predicate WaitsAt(w0: Cluster, run: seq<Label>, k: nat)
    requires WellFormed(w0)
  {
    && k < |run| && run[k].Op?
    && var w := At(w0, run, k);
       && w.phase.Comparing? && Cached(w).Some?
       && (|| Cached(w).value.deleting.Some?
           || (Cached(w).value.storage != w.desired && DeletedAt(w0, run, |run| - 1, Cached(w).value.uid)))
  }

  // The last step is a call that the API server refused, or a crash.
  ghost predicate Refused(w0: Cluster, run: seq<Label>)
    requires WellFormed(w0)
  {
    && run != []
    && (|| run[|run| - 1].Crash?
        || (run[|run| - 1].Op? && Refuses(At(w0, run, |run| - 1), At(w0, run, |run|))))
  }

  // A pass from `from` on applied the StatefulSet.
  ghost predicate Applies(w0: Cluster, run: seq<Label>, from: nat)
    requires WellFormed(w0)
  {
    exists k :: from <= k && AppliedAt(w0, run, k)
  }

  ghost predicate ComparedSince(w0: Cluster, run: seq<Label>, from: nat)
    requires WellFormed(w0)
  {
    exists k :: from <= k && WaitsAt(w0, run, k)
  }

  // It compared and waits, without getting as far as an apply.
  ghost predicate Waits(w0: Cluster, run: seq<Label>, from: nat)
    requires WellFormed(w0)
  {
    && ComparedSince(w0, run, from)
    && (forall k :: from <= k <= |run| ==> !At(w0, run, k).phase.Applying?)
  }

  lemma LastStep(w0: Cluster, before: seq<Label>, l: Label)
    requires WellFormed(w0)
    ensures At(w0, before + [l], |before|) == Exec(w0, before)
    ensures At(w0, before + [l], |before| + 1) == Exec(w0, before + [l])
  {
    assert (before + [l])[..|before|] == before && (before + [l])[..|before| + 1] == before + [l];
    hide Exec;
  }

  lemma AppliesBy(w0: Cluster, run: seq<Label>, k: nat, w: Cluster, u: Cluster)
    requires WellFormed(w0) && k + 1 == |run| && run[k].Op?
    requires At(w0, run, k) == w && At(w0, run, |run|) == u && Accepts(w, u)
    ensures Applies(w0, run, k)
  {
    hide Exec, Step, OpStep, At, Accepts;
    assert AppliedAt(w0, run, k);
  }

  lemma RefusesBy(w0: Cluster, run: seq<Label>, w: Cluster, u: Cluster)
    requires WellFormed(w0) && run != [] && run[|run| - 1].Op?
    requires At(w0, run, |run| - 1) == w && At(w0, run, |run|) == u && Refuses(w, u)
    ensures Refused(w0, run)
  {
    hide Exec, Step, OpStep, At, Refuses;
  }

  // The API server's answer to an apply, as the last step of the run.
  lemma Answered(w0: Cluster, run: seq<Label>, w: Cluster, u: Cluster, ok: bool)
    requires WellFormed(w0) && run != [] && run[|run| - 1].Op?
    requires At(w0, run, |run| - 1) == w && At(w0, run, |run|) == u
    requires if ok then w.phase.KeepingStrategy? || Accepts(w, u) else Refuses(w, u)
    ensures ok ==> w.phase.KeepingStrategy? || Applies(w0, run, |run| - 1)
    ensures !ok ==> Refused(w0, run)
  {
    hide *;
    if !ok {
      RefusesBy(w0, run, w, u);
    } else if !w.phase.KeepingStrategy? {
      AppliesBy(w0, run, |run| - 1, w, u);
    }
  }

  // A pass that has not got past its comparison at its last step has not applied anything.
  lemma WaitsFrom(w0: Cluster, run: seq<Label>, from: nat)
    requires WellFormed(w0) && from + 1 < |run|
    requires At(w0, run, from).phase == Idle && At(w0, run, |run|).phase == Idle
    requires !Past(At(w0, run, |run| - 1).phase) && forall i :: from < i < |run| ==> !run[i].Begin?
    requires ComparedSince(w0, run, from + 1)
    ensures Waits(w0, run, from)
  {
    hide At, WaitsAt;
    forall k | from < k < |run| ensures !At(w0, run, k).phase.Applying? {
      NotYetApplying(w0, run, k, |run| - 1);
    }
  }

  lemma AppliesOn(w0: Cluster, a: seq<Label>, b: seq<Label>, from: nat)
    requires WellFormed(w0) && a <= b && Applies(w0, a, from)
    ensures Applies(w0, b, from)
  {
    var k :| from <= k && AppliedAt(w0, a, k);
    assert a[..k] == b[..k] && a[..k + 1] == b[..k + 1];
    hide Exec;
    assert AppliedAt(w0, b, k);
  }

  lemma AppliedDoesNotWait(w0: Cluster, run: seq<Label>, from: nat)
    requires WellFormed(w0) && Applies(w0, run, from)
    ensures !Waits(w0, run, from)
  {
    var k :| from <= k && AppliedAt(w0, run, k);
    hide At, ComparedSince;
  }

  // Past the comparison: a pass that got as far as an apply.
  ghost predicate Past(phase: Phase) {
    !phase.Comparing? && !phase.Deleting?
  }

  lemma StaysPast(w: Cluster, l: Label)
    requires WellFormed(w) && Past(w.phase) && !l.Begin?
    ensures Past(Step(w, l).phase)
  {
    hide ApplySet;
  }

  lemma {:induction false} NotYetApplying(w0: Cluster, run: seq<Label>, k: nat, j: nat)
    requires WellFormed(w0) && k <= j <= |run| && !Past(At(w0, run, j).phase)
    requires forall i :: k <= i < j ==> !run[i].Begin?
    ensures !Past(At(w0, run, k).phase)
    decreases j
  {
    if k < j {
      ExecNext(w0, run, j - 1);
      hide *;
      AtIs(w0, run, j - 1);
      AtIs(w0, run, j);
      if Past(At(w0, run, j - 1).phase) {
        StaysPast(At(w0, run, j - 1), run[j - 1]);
      } else {
        NotYetApplying(w0, run, k, j - 1);
      }
    }
  }

  lemma AtIs(w0: Cluster, run: seq<Label>, k: nat)
    requires WellFormed(w0) && k <= |run|
    ensures At(w0, run, k) == Exec(w0, run[..k])
  {
  }

  class Reconciler {
    const desired: Storage
    var sets: seq<Option<StatefulSet>>
    var annotations: seq<Option<string>>
    var nextUid: nat
    var pods: map<string, Option<nat>>
    var seen: nat
    var noticed: nat
    ghost var phase: Phase
    ghost const origin: Cluster
    ghost var run: seq<Label>

    ghost function State(): Cluster
      reads this
    {
      Cluster(desired, sets, annotations, nextUid, pods, seen, noticed, phase)
    }

    // The live StatefulSet.
    ghost function Now(): Option<StatefulSet>
      reads this
    {
      if |sets| > 0 then sets[|sets| - 1] else None
    }

    ghost predicate Valid()
      reads this
    {
      WellFormed(origin) && State() == Exec(origin, run)
    }

    constructor (w: Cluster)
      requires WellFormed(w) && w.phase.Idle?
      ensures Valid() && run == [] && origin == w && State() == w
    {
      desired, sets, annotations, nextUid := w.desired, w.sets, w.annotations, w.nextUid;
      pods, seen, noticed, phase := w.pods, w.seen, w.noticed, w.phase;
      origin, run := w, [];
    }

    ghost method Log(w: Cluster, l: Label)
      requires WellFormed(origin) && w == Exec(origin, run) && State() == Step(w, l)
      modifies `run
      ensures Valid() && run == old(run) + [l]
    {
      run := run + [l];
      assert run[..|run| - 1] == old(run);
    }

    // Caches catch up, the garbage collector finishes deletes, StatefulSets adopt pods.
    method Pause()
      requires Valid()
      modifies `sets, `pods, `seen, `noticed, `run
      ensures Valid() && Uninterrupted(old(run), run) && old(seen) <= seen && StaysOrGoes(old(Now()), Now())
    {
      hide Valid, State, Now, Exec, Uninterrupted;
      var steps: nat :| 0 <= steps;
      UninterruptedExtends(run, run);
      for _ := 0 to steps
        invariant Valid() && Uninterrupted(old(run), run) && old(seen) <= seen && StaysOrGoes(old(Now()), Now())
      {
        ghost var before := run;
        PauseOnce();
        UninterruptedOn(old(run), before, run);
      }
    }

    method PauseOnce()
      requires Valid()
      modifies `sets, `pods, `seen, `noticed, `run
      ensures Valid() && Uninterrupted(old(run), run) && old(seen) <= seen && StaysOrGoes(old(Now()), Now())
    {
      hide Exec, Uninterrupted, OpStep, FinishDelete;
      ghost var w := State();
      var n: nat := *;
      if * {
        if seen <= n < |sets| { seen := n; }
        Log(w, Observe(n));
        UninterruptedByOne(old(run), Observe(n));
      } else if * {
        if noticed <= n < |annotations| { noticed := n; }
        Log(w, Notice(n));
        UninterruptedByOne(old(run), Notice(n));
      } else {
        TendPods();
      }
    }

    // StatefulSets adopt pods, and the garbage collector finishes deletes.
    method TendPods()
      requires Valid()
      modifies `sets, `pods, `run
      ensures Valid() && Uninterrupted(old(run), run) && StaysOrGoes(old(Now()), Now())
    {
      hide Exec, Uninterrupted, OpStep;
      ghost var w := State();
      var ss := sets[|sets| - 1];
      if ss.Some? && ss.value.deleting.Some? {
        var uid := ss.value.uid;
        sets := sets + [None];
        pods :=
          if ss.value.deleting.value.Orphan?
          then map p | p in pods :: if pods[p] == Some(uid) then None else pods[p]
          else map p | p in pods && pods[p] != Some(uid) :: pods[p];
        Log(w, CollectGarbage);
        UninterruptedByOne(old(run), CollectGarbage);
      } else {
        if ss.Some? {
          pods := map p | p in pods :: if pods[p].None? then Some(ss.value.uid) else pods[p];
        }
        Log(w, AdoptPods);
        UninterruptedByOne(old(run), AdoptPods);
      }
    }

    // A failed call or a restart.
    ghost method Stop()
      requires Valid()
      modifies `phase, `run
      ensures Valid() && phase == Idle && run == old(run) + [Crash] && Refused(origin, run)
    {
      ghost var w := State();
      phase := Idle;
      Log(w, Crash);
      hide Exec, Step;
    }

    lemma JustTook(before: seq<Label>, w: Cluster, l: Label)
      requires Valid() && w == Exec(origin, before) && run == before + [l]
      ensures At(origin, run, |run| - 1) == w && At(origin, run, |run|) == State()
    {
      LastStep(origin, before, l);
      hide Exec, Step;
    }

    ghost method Move(next: Phase)
      requires Valid() && OpStep(State()) == State().(phase := next)
      modifies `phase, `run
      ensures Valid() && phase == next && run == old(run) + [Op]
    {
      ghost var w := State();
      phase := next;
      Log(w, Op);
    }

    // Compare the cached StatefulSet with the desired storage; when it differs, remember its
    // update strategy and delete it, leaving its pods.
    method ChangeStorage(ghost cached: Option<string>) returns (ok: bool, recreating: bool)
      requires Valid() && phase == Comparing(cached)
      modifies this
      ensures Valid()
      ensures !ok ==> phase == Idle && old(run) <= run && Refused(origin, run)
      ensures ok ==>
        Uninterrupted(old(run), run) && phase == if recreating then Idle else Applying(cached)
      ensures ok && recreating ==>
        |old(run)| < |run| && !Past(At(origin, run, |run| - 1).phase) && ComparedSince(origin, run, |old(run)|)
    {
      hide Exec, Uninterrupted, Refused, DeletedAt, At, Past, ComparedSince;
      ghost var begun := run;
      Pause();
      ghost var compared, w := run, State();
      UninterruptedExtends(begun, compared);
      if sets[seen].None? {
        Move(Applying(cached));
        UninterruptedByOne(compared, Op);
        UninterruptedOn(begun, compared, run);
        return true, false;
      }
      var existing := sets[seen].value;
      if existing.deleting.Some? {
        Move(Idle);
        UninterruptedByOne(compared, Op);
        UninterruptedOn(begun, compared, run);
        GoingFor(|begun|, compared, w, existing);
        return true, true;
      }
      if existing.storage == desired {
        Move(Applying(cached));
        UninterruptedByOne(compared, Op);
        UninterruptedOn(begun, compared, run);
        return true, false;
      }
      RememberStrategy(existing);
      ghost var remembered := run;
      recreating := true;
      ok := DeleteCompared(existing.uid);
      UninterruptedByOne(compared, Op);
      UninterruptedExtends(compared, remembered);
      if ok {
        UninterruptedOn(compared, remembered, run);
        UninterruptedOn(begun, compared, run);
        UninterruptedExtends(remembered, run);
        OtherFor(|begun|, compared, w, existing);
      }
    }

    lemma GoingFor(from: nat, compared: seq<Label>, w: Cluster, existing: StatefulSet)
      requires Valid() && from <= |compared| && run == compared + [Op] && w == Exec(origin, compared)
      requires w.phase.Comparing? && Cached(w) == Some(existing) && existing.deleting.Some?
      ensures ComparedSince(origin, run, from) && !Past(At(origin, run, |run| - 1).phase)
    {
      JustTook(compared, w, Op);
      hide Exec, Step, OpStep, At;
      assert WaitsAt(origin, run, |run| - 1);
    }

    lemma OtherFor(from: nat, compared: seq<Label>, w: Cluster, existing: StatefulSet)
      requires WellFormed(origin) && from <= |compared| && compared + [Op] <= run && w == Exec(origin, compared)
      requires w.phase.Comparing? && Cached(w) == Some(existing) && existing.storage != w.desired
      requires DeletedAt(origin, run, |run| - 1, existing.uid)
      ensures ComparedSince(origin, run, from) && !Past(At(origin, run, |run| - 1).phase)
    {
      assert run[..|compared|] == compared && run[|compared|] == Op;
      hide Exec;
      assert WaitsAt(origin, run, |compared|);
    }

    // The delete itself, which a failed call may keep from being sent.
    method DeleteCompared(uid: nat) returns (ok: bool)
      requires Valid() && phase == Deleting(uid)
      modifies `sets, `pods, `seen, `noticed, `phase, `run
      ensures Valid() && phase == Idle && old(run) <= run
      ensures if ok then Uninterrupted(old(run), run) && run != [] && DeletedAt(origin, run, |run| - 1, uid) else Refused(origin, run)
    {
      hide Exec, Uninterrupted, Refused, DeletedAt;
      Pause();
      ghost var paused := run;
      UninterruptedExtends(old(run), paused);
      if * {
        Stop();
        return false;
      }
      ok := Delete(uid);
      UninterruptedOn(old(run), paused, run);
      UninterruptedExtends(old(run), run);
    }

    // On the RestateCluster, so that it outlives the StatefulSet and the operator.
    method RememberStrategy(existing: StatefulSet)
      requires Valid() && phase.Comparing? && sets[seen] == Some(existing)
      requires existing.deleting.None? && existing.storage != desired
      modifies `annotations, `phase, `run
      ensures Valid() && phase == Deleting(existing.uid) && run == old(run) + [Op]
    {
      ghost var w := State();
      annotations := annotations + [Some(existing.Strategy())];
      phase := Deleting(existing.uid);
      Log(w, Op);
    }

    // The uid precondition makes a delete of anything but what was compared an error.
    method Delete(uid: nat) returns (ok: bool)
      requires Valid() && phase == Deleting(uid)
      modifies `sets, `phase, `run
      ensures Valid() && phase == Idle && Uninterrupted(old(run), run)
      ensures ok <==> old(Live(State())).Some? && old(Live(State())).value.uid == uid
      ensures run == old(run) + [Op]
      ensures if ok then DeletedAt(origin, run, |run| - 1, uid) else Refused(origin, run)
    {
      ghost var w := State();
      var live := sets[|sets| - 1];
      ok := live.Some? && live.value.uid == uid;
      if ok {
        sets := sets + [Some(live.value.(deleting := Some(Orphan)))];
      }
      phase := Idle;
      Log(w, Op);
      JustTook(old(run), w, Op);
      hide Exec, Step;
    }

    // The API server's answer to an apply of the StatefulSet; the caller moves the pass on.
    method Send(m: Manager, storage: Option<Storage>, config: map<Key, string>, force: bool) returns (ok: bool)
      requires |sets| > 0
      modifies `sets, `nextUid
      ensures
        var applied := ApplySet(old(State()), m, storage, config, force);
        && ok == applied.Some?
        && State() == if ok then applied.value else old(State())
    {
      var live := sets[|sets| - 1];
      if live.None? {
        ok := storage.Some?;
        if ok {
          sets := sets + [Some(StatefulSet(nextUid, storage.value, Merged(map[], m, config), None))];
          nextUid := nextUid + 1;
        }
      } else {
        var fields := ServerSideApply.Apply(live.value.fields, m, config, force);
        ok := (storage.None? || storage.value == live.value.storage) && fields.Some?;
        if ok {
          sets := sets + [Some(live.value.(fields := fields.value))];
        }
      }
    }

    // The usual apply, which leaves the update strategy out.
    method ApplyStatefulSet(remembered: Option<string>, ghost cached: Option<string>) returns (ok: bool)
      requires Valid() && phase == Applying(cached)
      requires remembered == (if sets[seen].Some? then cached else annotations[|annotations| - 1])
      requires sets[seen].Some? || remembered.None?
      modifies `sets, `nextUid, `phase, `run
      ensures Valid() && Uninterrupted(old(run), run)
      ensures phase == if ok && remembered.Some? then Forgetting else Idle
      ensures ok ==> Live(State()).Some? && Live(State()).value.storage == desired
      ensures if ok then Applies(origin, run, |old(run)|) else Refused(origin, run)
    {
      hide Exec, Uninterrupted, ApplySet, Applies, Refused, At;
      ghost var w := State();
      ok := Send(Operator, Some(desired), map[], true);
      if ok { AppliesStorage(w, desired, map[]); }
      phase := if ok && remembered.Some? then Forgetting else Idle;
      Log(w, Op);
      UninterruptedByOne(old(run), Op);
      JustTook(old(run), w, Op);
      Answered(origin, run, w, State(), ok);
    }

    // Recreate with the remembered strategy, then pin it under a second manager, since the
    // operator's later applies leave it out.
    method Recreate(strategy: string, ghost cached: Option<string>) returns (ok: bool)
      requires Valid() && phase == Applying(cached)
      requires sets[seen].None? && annotations[|annotations| - 1] == Some(strategy)
      modifies this
      ensures Valid()
      ensures !ok ==> phase == Idle && old(run) <= run && Refused(origin, run)
      ensures ok ==>
        && Uninterrupted(old(run), run) && phase == Forgetting && Applies(origin, run, |old(run)|)
        && Live(State()).Some? && Live(State()).value.Strategy() == strategy && HasStorage(Now(), desired)
    {
      hide Exec, Uninterrupted, Applies, Refused;
      ghost var begun := run;
      ok := CreateWith(strategy, cached);
      UninterruptedExtends(begun, run);
      if !ok { return; }
      ghost var created := run;
      Pause();
      UninterruptedOn(begun, created, run);
      UninterruptedExtends(begun, run);
      if * {
        Stop();
        return false;
      }
      ghost var paused := run;
      ok := Pin(strategy);
      UninterruptedOn(begun, paused, run);
      UninterruptedExtends(begun, run);
      UninterruptedOn(created, paused, run);
      UninterruptedExtends(created, run);
      AppliesOn(origin, created, run, |begun|);
    }

    method CreateWith(strategy: string, ghost cached: Option<string>) returns (ok: bool)
      requires Valid() && phase == Applying(cached)
      requires sets[seen].None? && annotations[|annotations| - 1] == Some(strategy)
      modifies `sets, `nextUid, `phase, `run
      ensures Valid() && Uninterrupted(old(run), run)
      ensures phase == if ok then KeepingStrategy(strategy) else Idle
      ensures ok ==> HasStorage(Now(), desired)
      ensures if ok then Applies(origin, run, |old(run)|) else Refused(origin, run)
    {
      hide Exec, Uninterrupted, ApplySet, Applies, Refused, At;
      ghost var w := State();
      ok := Send(Operator, Some(desired), map[STRATEGY := strategy], true);
      if ok { AppliesStorage(w, desired, map[STRATEGY := strategy]); }
      phase := if ok then KeepingStrategy(strategy) else Idle;
      Log(w, Op);
      UninterruptedByOne(old(run), Op);
      JustTook(old(run), w, Op);
      Answered(origin, run, w, State(), ok);
    }

    method Pin(strategy: string) returns (ok: bool)
      requires Valid() && phase == KeepingStrategy(strategy)
      modifies `sets, `nextUid, `phase, `run
      ensures Valid() && Uninterrupted(old(run), run)
      ensures phase == if ok then Forgetting else Idle
      ensures ok ==> Live(State()).Some? && Live(State()).value.Strategy() == strategy
      ensures ok && HasStorage(old(Now()), desired) ==> HasStorage(Now(), desired)
      ensures !ok ==> Refused(origin, run)
    {
      hide Exec, Uninterrupted, ApplySet, Applies, Refused, At;
      ghost var w := State();
      ok := Send(StrategyKeeper, None, map[STRATEGY := strategy], false);
      if ok { AppliesStrategy(w, strategy); }
      phase := if ok then Forgetting else Idle;
      Log(w, Op);
      UninterruptedByOne(old(run), Op);
      JustTook(old(run), w, Op);
      Answered(origin, run, w, State(), ok);
    }

    method Forget()
      requires Valid() && phase == Forgetting
      modifies `annotations, `phase, `run
      ensures Valid() && phase == Idle && Uninterrupted(old(run), run)
      ensures annotations == old(annotations) + [None]
    {
      ghost var w := State();
      annotations := annotations + [None];
      phase := Idle;
      Log(w, Op);
    }

    // One pass. It fails by a crash or a refused call alone; otherwise it waits, without an apply,
    // exactly when the cached StatefulSet is going or it deletes it for its storage.
    method Reconcile() returns (outcome: Outcome)
      requires Valid() && phase == Idle
      modifies this
      ensures Valid() && phase == Idle && old(run) + [Begin] <= run
      ensures if outcome.Failed? then Refused(origin, run) else Uninterrupted(old(run) + [Begin], run)
      ensures !outcome.Failed? ==> (outcome.Recreating? <==> Waits(origin, run, |old(run)|))
      // what is there has the desired storage
      ensures outcome.Applied? ==> Applies(origin, run, |old(run)|) && HasStorage(Now(), desired)
    {
      hide Exec, Uninterrupted, Refused, Applies, Waits, ComparedSince, Past;
      ghost var before := run;
      var cached := Compare();
      ghost var begun := run;
      var ok, recreating := ChangeStorage(cached);
      UninterruptedExtends(begun, run);
      if !ok { return Failed; }
      if recreating {
        WaitsSince(before);
        return Recreating;
      }
      ghost var compared := run;
      outcome := EnsureStatefulSet(cached);
      if !outcome.Failed? {
        UninterruptedOn(begun, compared, run);
        AppliesSince(|before|, |compared|);
        AppliedDoesNotWait(origin, run, |before|);
      }
    }

    // The pass reads the annotation from its cache.
    method Compare() returns (cached: Option<string>)
      requires Valid() && phase == Idle
      modifies `phase, `run
      ensures Valid() && phase == Comparing(cached) && run == old(run) + [Begin]
    {
      ghost var w := State();
      cached := annotations[noticed];
      phase := Comparing(cached);
      Log(w, Begin);
    }

    lemma AppliesSince(from: nat, later: nat)
      requires WellFormed(origin) && from <= later && Applies(origin, run, later)
      ensures Applies(origin, run, from)
    {
    }

    lemma WaitsSince(before: seq<Label>)
      requires Valid() && phase == Idle && Exec(origin, before).phase == Idle
      requires Uninterrupted(before + [Begin], run) && |before| + 1 < |run|
      requires !Past(At(origin, run, |run| - 1).phase) && ComparedSince(origin, run, |before| + 1)
      ensures Waits(origin, run, |before|)
    {
      hide *;
      BeginsOnce(before, run);
      IsAt(before);
      WaitsFrom(origin, run, |before|);
    }

    lemma IsAt(before: seq<Label>)
      requires Valid() && before <= run
      ensures WellFormed(origin) && At(origin, run, |before|) == Exec(origin, before) && At(origin, run, |run|).phase == phase
    {
      hide Exec, Step, OpStep;
      assert run[..|run|] == run && run[..|before|] == before;
    }

    // A recreate reads the annotation from the API server rather than the cache.
    method EnsureStatefulSet(cached: Option<string>) returns (outcome: Outcome)
      requires Valid() && phase == Applying(cached)
      modifies this
      ensures Valid() && phase == Idle && old(run) <= run && !outcome.Recreating?
      ensures if outcome.Failed? then Refused(origin, run) else Uninterrupted(old(run), run)
      ensures outcome.Applied? ==> Applies(origin, run, |old(run)|) && HasStorage(Now(), desired)
    {
      hide Uninterrupted, Exec, Applies, Refused;
      ghost var begun := run;
      Pause();
      ghost var paused := run;
      UninterruptedExtends(begun, paused);
      var ssCached := sets[seen].Some?;
      var remembered := if ssCached then cached else annotations[|annotations| - 1];
      var ok: bool;
      if remembered.Some? && !ssCached {
        ok := Recreate(remembered.value, cached);
      } else {
        ok := ApplyStatefulSet(remembered, cached);
      }
      UninterruptedExtends(paused, run);
      if !ok { return Failed; }
      UninterruptedOn(begun, paused, run);
      AppliesSince(|begun|, |paused|);
      if remembered.Some? {
        ghost var applied := run;
        UninterruptedExtends(begun, applied);
        ok := ForgetAfterwards();
        if !ok { return Failed; }
        UninterruptedOn(begun, applied, run);
        UninterruptedExtends(applied, run);
        AppliesOn(origin, applied, run, |begun|);
      }
      return Applied;
    }

    method ForgetAfterwards() returns (ok: bool)
      requires Valid() && phase == Forgetting
      modifies this
      ensures Valid() && phase == Idle && old(run) <= run
      ensures ok ==> Uninterrupted(old(run), run) && (HasStorage(old(Now()), desired) ==> HasStorage(Now(), desired))
      ensures !ok ==> Refused(origin, run)
    {
      Pause();
      if * {
        Stop();
        return false;
      }
      Forget();
      return true;
    }
  }
}
