// Exactly when a StatefulSet's update strategy survives its storage changes, whatever the spec
// is edited to, wherever a pass stops and however far the caches lag (compute.rs).
module StorageStrategy {
  import opened Base
  import opened ServerSideApply
  import opened StorageChange

  // A StatefulSet created from what is remembered would have the strategy.
  ghost predicate Remembers(w: Cluster, strategy: string)
    requires WellFormed(w)
  {
    Annotation(w) == Some(strategy) || strategy == DEFAULT_STRATEGY
  }

  // The StatefulSet has the strategy, and it is remembered while the StatefulSet is going or gone.
  ghost predicate Held(w: Cluster, strategy: string)
    requires WellFormed(w)
  {
    match Live(w)
    case None => Remembers(w, strategy)
    case Some(ss) => ss.Strategy() == strategy && (ss.deleting.Some? ==> Remembers(w, strategy))
  }

  ghost predicate Has(entry: Option<StatefulSet>, strategy: string) {
    entry.Some? ==> entry.value.Strategy() == strategy
  }

  ghost predicate Recalls(entry: Option<string>, strategy: string) {
    entry.None? || entry == Some(strategy)
  }

  // What a step keeps unless it loses the strategy: nothing a cache may still show has another.
  ghost predicate Holding(w: Cluster, strategy: string) {
    && WellFormed(w) && Held(w, strategy)
    && (forall i :: w.seen <= i < |w.sets| ==> Has(w.sets[i], strategy))
    && (forall i :: w.noticed <= i < |w.annotations| ==> Recalls(w.annotations[i], strategy))
    && match w.phase
       case Comparing(cached) => Recalls(cached, strategy)
       case Applying(cached) => Recalls(cached, strategy)
       case Deleting(_) => Annotation(w) == Some(strategy)
       case KeepingStrategy(s) => s == strategy
       case _ => true
  }

  // The steps that lose it: the apply that omits the strategy, on a StatefulSet that is gone or
  // whose strategy the operator alone owns, and forgetting it while the StatefulSet is going or
  // gone.
  ghost predicate Loses(w: Cluster, l: Label, strategy: string)
    requires WellFormed(w)
  {
    && l.Op? && strategy != DEFAULT_STRATEGY
    && match w.phase
       case Applying(_) =>
         && (Cached(w).Some? || Annotation(w).None?)
         && (Live(w).Some? ==> Live(w).value.storage == w.desired && !Keeps(Live(w).value, strategy))
       case Forgetting => Live(w).None? || Live(w).value.deleting.Some?
       case _ => false
  }

  // --- The apply of a pass, exactly ---

  lemma OmittingKeepsExactlyWhen(ss: StatefulSet, strategy: string)
    requires ss.Strategy() == strategy
    ensures ss.(fields := Merged(ss.fields, Operator, map[])).Strategy() == strategy <==> Keeps(ss, strategy)
  {
    AppliedStrategy(ss.fields, strategy);
    if STRATEGY in ss.fields && ss.fields[STRATEGY].owners == {Operator} {
      assert STRATEGY !in Merged(ss.fields, Operator, map[]);
    }
  }

  lemma CreatedWith(strategy: string)
    ensures Merged<Manager>(map[], Operator, map[]) == map[]
    ensures
      var fields := Merged<Manager>(map[], Operator, map[STRATEGY := strategy]);
      STRATEGY in fields && fields[STRATEGY].value == strategy
  {
  }

  // With a strategy to keep, and the StatefulSet gone or already the one to apply: the pass keeps
  // it exactly when its cache does not show the StatefulSet yet, or the strategy is the default,
  // or the operator is not its only owner.
  lemma ApplyKeepsExactlyWhen(w: Cluster, strategy: string)
    requires WellFormed(w) && w.phase.Applying? && Annotation(w) == Some(strategy)
    requires Live(w).Some? ==> Live(w).value.storage == w.desired && Live(w).value.Strategy() == strategy
    ensures
      var u := OpStep(w);
      && Live(u).Some? && Live(u).value.storage == w.desired
      && (Live(u).value.Strategy() == strategy <==>
            Cached(w).None? || strategy == DEFAULT_STRATEGY || (Live(w).Some? && Keeps(Live(w).value, strategy)))
  {
    CreatedWith(strategy);
    if Live(w).Some? {
      AppliedStrategy(Live(w).value.fields, strategy);
      OmittingKeepsExactlyWhen(Live(w).value, strategy);
    }
    hide Merged, Keeps, Conflicts;
  }

  // --- Every other step keeps it ---

  lemma StoreHolds(w: Cluster, u: Cluster, entry: Option<StatefulSet>, strategy: string)
    requires Holding(w, strategy) && Has(entry, strategy)
    requires u == Store(w, entry).(phase := u.phase, nextUid := u.nextUid, pods := u.pods)
    ensures WellFormed(u) && Live(u) == entry && Annotation(u) == Annotation(w)
    ensures forall i :: u.seen <= i < |u.sets| ==> Has(u.sets[i], strategy)
    ensures forall i :: u.noticed <= i < |u.annotations| ==> Recalls(u.annotations[i], strategy)
  {
  }

  // The apply that carries the strategy leaves it in place.
  lemma RecreatingHas(w: Cluster, strategy: string)
    requires WellFormed(w)
    ensures
      var applied := ApplySet(w, Operator, Some(w.desired), map[STRATEGY := strategy], true);
      applied.Some? ==> |applied.value.sets| > 0 && Has(Live(applied.value), strategy)
  {
    CreatedWith(strategy);
    if Live(w).Some? {
      AppliedStrategy(Live(w).value.fields, strategy);
    }
    hide Merged, Conflicts;
  }

  // The apply that omits it leaves it in place unless that loses it.
  lemma OmittingHas(w: Cluster, strategy: string)
    requires WellFormed(w) && Has(Live(w), strategy)
    requires strategy == DEFAULT_STRATEGY
      || (Live(w).Some? && (Live(w).value.storage == w.desired ==> Keeps(Live(w).value, strategy)))
    ensures
      var applied := ApplySet(w, Operator, Some(w.desired), map[], true);
      applied.Some? ==> |applied.value.sets| > 0 && Has(Live(applied.value), strategy)
  {
    CreatedWith(strategy);
    if Live(w).Some? {
      AppliedStrategy(Live(w).value.fields, strategy);
      OmittingKeepsExactlyWhen(Live(w).value, strategy);
    }
    hide Merged, Conflicts;
  }

  // The first apply of a pass: what it sends, and where the pass goes on.
  lemma ApplyingMoves(w: Cluster)
    requires WellFormed(w) && w.phase.Applying?
    ensures
      var recreates := Cached(w).None? && Annotation(w).Some?;
      var config := if recreates then map[STRATEGY := Annotation(w).value] else map[];
      var applied := ApplySet(w, Operator, Some(w.desired), config, true);
      var u := OpStep(w);
      && (applied.None? ==> u == w.(phase := Idle))
      && (applied.Some? ==>
            && |applied.value.sets| > 0
            && u == Store(w, Live(applied.value)).(phase := u.phase, nextUid := u.nextUid)
            && (if recreates then u.phase == KeepingStrategy(Annotation(w).value)
                else u.phase.Forgetting? || u.phase.Idle?))
  {
    hide Merged, Conflicts;
  }

  lemma ApplyingHolds(w: Cluster, strategy: string)
    requires Holding(w, strategy) && w.phase.Applying? && !Loses(w, Op, strategy)
    ensures Holding(OpStep(w), strategy)
  {
    var recreates := Cached(w).None? && Annotation(w).Some?;
    assert Recalls(w.annotations[|w.annotations| - 1], strategy) && Has(w.sets[|w.sets| - 1], strategy);
    var applied := ApplySet(w, Operator, Some(w.desired), if recreates then map[STRATEGY := strategy] else map[], true);
    if recreates {
      RecreatingHas(w, strategy);
    } else {
      OmittingHas(w, strategy);
    }
    ApplyingMoves(w);
    hide ApplySet, OpStep, Merged, Keeps, Conflicts, Recalls;
    if applied.Some? {
      StoreHolds(w, OpStep(w), Live(applied.value), strategy);
    }
  }

  lemma PinningHolds(w: Cluster, strategy: string)
    requires Holding(w, strategy) && w.phase.KeepingStrategy?
    ensures Holding(OpStep(w), strategy)
  {
    var u := OpStep(w);
    if Live(w).Some? {
      AppliedStrategy(Live(w).value.fields, strategy);
      hide Merged, Conflicts;
      var applied := ApplySet(w, StrategyKeeper, None, map[STRATEGY := strategy], false);
      if applied.Some? {
        StoreHolds(w, u, Live(applied.value), strategy);
      }
    }
  }

  lemma DeletingHolds(w: Cluster, strategy: string)
    requires Holding(w, strategy) && w.phase.Deleting?
    ensures Holding(OpStep(w), strategy)
  {
    var deleted := DeleteSet(w, w.phase.uid, Orphan);
    if deleted.Some? {
      assert Has(w.sets[|w.sets| - 1], strategy);
      StoreHolds(w, OpStep(w), Live(deleted.value), strategy);
    }
  }

  lemma OperationHolds(w: Cluster, strategy: string)
    requires Holding(w, strategy) && !Loses(w, Op, strategy)
    ensures Holding(OpStep(w), strategy)
  {
    match w.phase
    case Applying(_) => ApplyingHolds(w, strategy);
    case KeepingStrategy(_) => PinningHolds(w, strategy);
    case Deleting(_) => DeletingHolds(w, strategy);
    case Comparing(_) => assert Has(w.sets[w.seen], strategy);
    case _ =>
  }

  lemma StepHolds(w: Cluster, l: Label, strategy: string)
    requires Holding(w, strategy) && !Loses(w, l, strategy)
    ensures Holding(Step(w, l), strategy)
  {
    match l
    case Op => OperationHolds(w, strategy);
    case CollectGarbage =>
      if FinishDelete(w) != w {
        StoreHolds(w, FinishDelete(w), None, strategy);
      }
    case _ =>
  }

  // A losing step does lose it.
  lemma LosingStep(w: Cluster, l: Label, strategy: string)
    requires Holding(w, strategy) && Loses(w, l, strategy)
    ensures !Held(Step(w, l), strategy)
  {
    CreatedWith(strategy);
    if Live(w).Some? {
      AppliedStrategy(Live(w).value.fields, strategy);
      OmittingKeepsExactlyWhen(Live(w).value, strategy);
    }
    hide Merged, Keeps, Conflicts;
  }

  // --- Whole runs ---

  ghost predicate LosesAt(w0: Cluster, run: seq<Label>, k: nat, strategy: string)
    requires WellFormed(w0) && k < |run|
  {
    Loses(Exec(w0, run[..k]), run[k], strategy)
  }

  ghost predicate HeldAt(w0: Cluster, run: seq<Label>, k: nat, strategy: string)
    requires WellFormed(w0) && k <= |run|
  {
    Held(Exec(w0, run[..k]), strategy)
  }

  lemma {:induction false} HoldsUntilLost(w0: Cluster, run: seq<Label>, k: nat, strategy: string)
    requires Holding(w0, strategy) && k <= |run|
    requires forall j :: 0 <= j < k ==> !LosesAt(w0, run, j, strategy)
    ensures Holding(Exec(w0, run[..k]), strategy)
    decreases k
  {
    if k > 0 {
      HoldsUntilLost(w0, run, k - 1, strategy);
      ExecNext(w0, run, k - 1);
      assert !LosesAt(w0, run, k - 1, strategy);
      StepHolds(Exec(w0, run[..k - 1]), run[k - 1], strategy);
    }
  }

  lemma LostAfter(w0: Cluster, run: seq<Label>, k: nat, strategy: string)
    requires Holding(w0, strategy) && k < |run| && LosesAt(w0, run, k, strategy)
    ensures exists j :: 0 <= j <= |run| && !HeldAt(w0, run, j, strategy)
  {
    // the first losing step
    var j := 0;
    while !LosesAt(w0, run, j, strategy)
      invariant j <= k
      invariant forall i :: 0 <= i < j ==> !LosesAt(w0, run, i, strategy)
      decreases k - j
    {
      j := j + 1;
    }
    HoldsUntilLost(w0, run, j, strategy);
    LosingStep(Exec(w0, run[..j]), run[j], strategy);
    ExecNext(w0, run, j);
    assert !HeldAt(w0, run, j + 1, strategy);
  }

  // Over any run, with edits and stops anywhere: the strategy is held all along exactly when no
  // step of the run loses it.
  lemma StrategyHeldExactly(w0: Cluster, run: seq<Label>, strategy: string)
    requires Holding(w0, strategy)
    ensures
      (forall k :: 0 <= k <= |run| ==> HeldAt(w0, run, k, strategy)) <==>
      (forall k :: 0 <= k < |run| ==> !LosesAt(w0, run, k, strategy))
  {
    if forall k :: 0 <= k < |run| ==> !LosesAt(w0, run, k, strategy) {
      forall k | 0 <= k <= |run| ensures HeldAt(w0, run, k, strategy) {
        HoldsUntilLost(w0, run, k, strategy);
      }
    } else {
      var k :| 0 <= k < |run| && LosesAt(w0, run, k, strategy);
      LostAfter(w0, run, k, strategy);
    }
  }

  // A StatefulSet nobody is changing, with whatever spec.
  lemma AskedHolds(w: Cluster, uid: nat, strategy: string)
    requires Asked(w, uid, strategy)
    ensures Holding(w, strategy)
  {
    assert Has(w.sets[|w.sets| - 1], strategy);
  }

  // The default strategy is never lost.
  lemma DefaultIsNeverLost(w0: Cluster, run: seq<Label>)
    requires Holding(w0, "RollingUpdate")
    ensures Held(Exec(w0, run), "RollingUpdate")
  {
    HoldsUntilLost(w0, run, |run|, DEFAULT_STRATEGY);
    assert run[..|run|] == run;
  }

  // --- The pods ---

  // Nothing is being deleted together with its pods.
  ghost predicate LeavesPods(w: Cluster) {
    WellFormed(w) && (Live(w).Some? ==> Live(w).value.deleting != Some(Background))
  }

  // Every pod survives every run: no StatefulSet is deleted but as an orphaning delete.
  lemma {:induction false} PodsSurvive(w0: Cluster, run: seq<Label>)
    requires LeavesPods(w0)
    ensures LeavesPods(Exec(w0, run)) && Exec(w0, run).pods.Keys == w0.pods.Keys
    decreases |run|
  {
    if run != [] {
      PodsSurvive(w0, run[..|run| - 1]);
      StepLeavesPods(Exec(w0, run[..|run| - 1]), run[|run| - 1]);
    }
  }

  lemma StepLeavesPods(w: Cluster, l: Label)
    requires LeavesPods(w)
    ensures LeavesPods(Step(w, l)) && Step(w, l).pods.Keys == w.pods.Keys
  {
    hide Merged, Conflicts;
  }
}
