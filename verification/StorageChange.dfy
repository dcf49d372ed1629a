// Changing a StatefulSet's storage by deleting and recreating it, as a protocol over passes,
// cache lag and restarts (compute.rs). One label is one API call, one cache update, one step of
// the API server's garbage collector, or a crash.
module StorageChange {
  import opened Base
  import opened ServerSideApply
  import Quantity

  // The operator's two field managers on the StatefulSet, and anyone else.
  datatype Manager = Operator | StrategyKeeper | User

  // The part of a volume claim template that cannot change in place.
  datatype Storage = Storage(bytes: int, vac: Option<string>)

  datatype Propagation = Orphan | Background

  const STRATEGY: Key := "updateStrategy"
  const DEFAULT_STRATEGY: string := "RollingUpdate"

  datatype StatefulSet = StatefulSet(uid: nat, storage: Storage, fields: Fields<Manager>, deleting: Option<Propagation>) {
    function Strategy(): string {
      if STRATEGY in fields then fields[STRATEGY].value else DEFAULT_STRATEGY
    }
  }

  datatype Phase =
    | Idle
    // the annotation as the cached RestateCluster shows it
    | Comparing(cached: Option<string>)
    | Deleting(uid: nat)
    | Applying(cached: Option<string>)
    | KeepingStrategy(strategy: string)
    | Forgetting

  datatype Cluster = Cluster(
    desired: Storage,
    // what was ever stored, the last entry being live
    sets: seq<Option<StatefulSet>>,
    annotations: seq<Option<string>>,
    nextUid: nat,
    // the pods and the StatefulSet each belongs to
    pods: map<string, Option<nat>>,
    // how far the operator's caches have come
    seen: nat,
    noticed: nat,
    phase: Phase)

  ghost predicate WellFormed(w: Cluster) {
    w.seen < |w.sets| && w.noticed < |w.annotations|
  }

  function Live(w: Cluster): Option<StatefulSet>
    requires |w.sets| > 0
  {
    w.sets[|w.sets| - 1]
  }

  function Annotation(w: Cluster): Option<string>
    requires |w.annotations| > 0
  {
    w.annotations[|w.annotations| - 1]
  }

  function Store(w: Cluster, ss: Option<StatefulSet>): Cluster {
    w.(sets := w.sets + [ss])
  }

  // The annotation survives both the StatefulSet and an operator restart.
  function Remember(w: Cluster, strategy: Option<string>): Cluster {
    w.(annotations := w.annotations + [strategy])
  }

  // `apply` of the StatefulSet under one manager. Absent, it is created; present, its claim
  // templates cannot change. A strategy nobody applies falls back to the default.
  function ApplySet(
      w: Cluster, m: Manager, storage: Option<Storage>, config: map<Key, string>, force: bool): Option<Cluster>
    requires |w.sets| > 0
  {
    match Live(w)
    case None =>
      if storage.None? then None
      else Some(Store(w, Some(StatefulSet(w.nextUid, storage.value, Merged(map[], m, config), None))).(nextUid := w.nextUid + 1))
    case Some(ss) =>
      if storage.Some? && storage.value != ss.storage then None
      else
        match ServerSideApply.Apply(ss.fields, m, config, force)
        case None => None
        case Some(fields) => Some(Store(w, Some(ss.(fields := fields))))
  }

  // `delete` with a uid precondition; None is an error response.
  function DeleteSet(w: Cluster, uid: nat, policy: Propagation): Option<Cluster>
    requires |w.sets| > 0
  {
    if Live(w).None? || Live(w).value.uid != uid then None
    else Some(Store(w, Some(Live(w).value.(deleting := Some(policy)))))
  }

  // The garbage collector finishes a delete: with the orphan policy the pods lose their owner,
  // otherwise they go with it.
  function FinishDelete(w: Cluster): Cluster
    requires |w.sets| > 0
  {
    if Live(w).None? || Live(w).value.deleting.None? then w
    else
      var uid := Live(w).value.uid;
      Store(w, None).(pods :=
        if Live(w).value.deleting.value.Orphan?
        then map p | p in w.pods :: if w.pods[p] == Some(uid) then None else w.pods[p]
        else map p | p in w.pods && w.pods[p] != Some(uid) :: w.pods[p])
  }

  datatype Label =
    // a cache catches up with some later state
    | Observe(seen: nat)
    | Notice(noticed: nat)
    | CollectGarbage
    // a StatefulSet takes over matching pods without an owner
    | AdoptPods
    | Edit(desired: Storage)
    | Begin
    | Op
    | Crash

  function Cached(w: Cluster): Option<StatefulSet>
    requires WellFormed(w)
  {
    w.sets[w.seen]
  }

  function OpStep(w: Cluster): Cluster
    requires WellFormed(w)
  {
    match w.phase
    case Idle => w
    case Comparing(cached) =>
      if Cached(w).None? then w.(phase := Applying(cached))
      else
        var existing := Cached(w).value;
        if existing.deleting.Some? then w.(phase := Idle)
        else if existing.storage == w.desired then w.(phase := Applying(cached))
        else Remember(w, Some(existing.Strategy())).(phase := Deleting(existing.uid))
    case Deleting(uid) =>
      var deleted := DeleteSet(w, uid, Orphan);
      (if deleted.Some? then deleted.value else w).(phase := Idle)
    case Applying(cached) =>
      var ssCached := Cached(w).Some?;
      var remembered := if ssCached then cached else Annotation(w);
      if remembered.Some? && !ssCached then
        var applied := ApplySet(w, Operator, Some(w.desired), map[STRATEGY := remembered.value], true);
        if applied.Some? then applied.value.(phase := KeepingStrategy(remembered.value)) else w.(phase := Idle)
      else
        var applied := ApplySet(w, Operator, Some(w.desired), map[], true);
        if applied.Some? then applied.value.(phase := if remembered.Some? then Forgetting else Idle) else w.(phase := Idle)
    case KeepingStrategy(strategy) =>
      var applied := ApplySet(w, StrategyKeeper, None, map[STRATEGY := strategy], false);
      if applied.Some? then applied.value.(phase := Forgetting) else w.(phase := Idle)
    case Forgetting => Remember(w, None).(phase := Idle)
  }

  function Step(w: Cluster, l: Label): Cluster
    requires WellFormed(w)
  {
    match l
    case Observe(n) => if w.seen <= n < |w.sets| then w.(seen := n) else w
    case Notice(n) => if w.noticed <= n < |w.annotations| then w.(noticed := n) else w
    case CollectGarbage => FinishDelete(w)
    case AdoptPods =>
      if Live(w).None? || Live(w).value.deleting.Some? then w
      else w.(pods := map p | p in w.pods :: if w.pods[p].None? then Some(Live(w).value.uid) else w.pods[p])
    // a pass works on the spec it began with: an edit during a pass counts from its end
    case Edit(storage) => if w.phase.Idle? then w.(desired := storage) else w
    case Begin => if w.phase.Idle? then w.(phase := Comparing(w.annotations[w.noticed])) else w
    case Op => OpStep(w)
    case Crash => w.(phase := Idle)
  }

  lemma StepKeepsWellFormed(w: Cluster, l: Label)
    requires WellFormed(w)
    ensures WellFormed(Step(w, l))
  {
  }

  function Exec(w: Cluster, run: seq<Label>): (u: Cluster)
    requires WellFormed(w)
    ensures WellFormed(u)
    decreases |run|
  {
    if run == [] then w
    else
      var before := Exec(w, run[..|run| - 1]);
      StepKeepsWellFormed(before, run[|run| - 1]);
      Step(before, run[|run| - 1])
  }

  // --- Comparing what is stored with what is desired ---

  // The comparison itself: the stored request, read as bytes, and the attributes class.
  predicate Matches(request: string, vac: Option<string>, desired: Storage) {
    Quantity.ToBytes(request) == Quantity.Bytes(desired.bytes) && vac == desired.vac
  }

  // The API server stores the request in its canonical form: the comparison finds a StatefulSet
  // unchanged exactly when its storage is the desired one.
  lemma ComparisonReadsStorage(stored: Storage, desired: Storage)
    requires 0 <= stored.bytes <= Quantity.I64_MAX
    ensures Matches(Quantity.Canonical(stored.bytes, 0), stored.vac, desired) <==> stored == desired
  {
    Quantity.RoundTrip(stored.bytes);
    hide Quantity.ToBytes, Quantity.Canonical;
  }

  // --- A storage change ---

  // The strategy outlives an operator apply that omits it: someone else owns it, or it is what
  // the default would be.
  ghost predicate Keeps(ss: StatefulSet, strategy: string) {
    && ss.Strategy() == strategy
    && (STRATEGY in ss.fields && ss.fields[STRATEGY].owners == {Operator} ==> strategy == DEFAULT_STRATEGY)
  }

  // The StatefulSet the change started from.
  ghost predicate IsOld(ss: StatefulSet, w: Cluster, uid: nat, strategy: string) {
    ss.uid == uid && ss.storage != w.desired && ss.Strategy() == strategy && ss.deleting != Some(Background)
  }

  // The one it ends with.
  ghost predicate IsNew(ss: StatefulSet, w: Cluster, uid: nat, strategy: string) {
    ss.uid != uid && ss.storage == w.desired && ss.Strategy() == strategy && ss.deleting.None?
  }

  ghost predicate Known(entry: Option<StatefulSet>, w: Cluster, uid: nat, strategy: string) {
    entry.Some? ==> IsOld(entry.value, w, uid, strategy) || IsNew(entry.value, w, uid, strategy)
  }

  // The change has just been asked for: the StatefulSet exists with other storage.
  ghost predicate Asked(w: Cluster, uid: nat, strategy: string) {
    && WellFormed(w) && w.phase.Idle? && uid < w.nextUid
    && (forall i :: w.seen <= i < |w.sets| ==>
          w.sets[i].Some? && IsOld(w.sets[i].value, w, uid, strategy) && w.sets[i].value.deleting.None?)
    && (forall i :: w.noticed <= i < |w.annotations| ==> w.annotations[i].None? || w.annotations[i] == Some(strategy))
  }

  // What every step keeps. The history reads old, then absent, then new; while the StatefulSet
  // is going or gone its strategy is remembered.
  ghost predicate Changing(w: Cluster, uid: nat, strategy: string) {
    && WellFormed(w) && uid < w.nextUid
    && (forall i :: w.seen <= i < |w.sets| ==> Known(w.sets[i], w, uid, strategy))
    && (forall i, j :: w.seen <= i <= j < |w.sets| && w.sets[i].None? ==>
          w.sets[j].None? || IsNew(w.sets[j].value, w, uid, strategy))
    && (forall i, j :: w.seen <= i <= j < |w.sets| && w.sets[i].Some? && IsNew(w.sets[i].value, w, uid, strategy) ==>
          w.sets[j].Some? && IsNew(w.sets[j].value, w, uid, strategy))
    && (forall i :: w.noticed <= i < |w.annotations| ==> w.annotations[i].None? || w.annotations[i] == Some(strategy))
    && (Live(w).None? || Live(w).value.deleting.Some? ==> Annotation(w) == Some(strategy))
    && (Live(w).Some? && IsNew(Live(w).value, w, uid, strategy) ==>
          Keeps(Live(w).value, strategy) || w.phase == KeepingStrategy(strategy))
    && PassOk(w, uid, strategy)
  }

  ghost predicate PassOk(w: Cluster, uid: nat, strategy: string)
    requires WellFormed(w)
  {
    var settled := Live(w).Some? && IsNew(Live(w).value, w, uid, strategy);
    match w.phase
    case Idle => true
    case Comparing(cached) => cached.None? || cached == Some(strategy)
    case Deleting(u) => u == uid && Annotation(w) == Some(strategy)
    case Applying(cached) =>
      && (cached.None? || cached == Some(strategy))
      && (Cached(w).None? || IsNew(Cached(w).value, w, uid, strategy))
    case KeepingStrategy(s) => s == strategy && settled && Annotation(w) == Some(strategy)
    case Forgetting => settled && Keeps(Live(w).value, strategy)
  }

  // --- Every step keeps it ---

  // One more stored state, given how it follows the live one.
  lemma StoreKeeps(w: Cluster, u: Cluster, entry: Option<StatefulSet>, uid: nat, strategy: string)
    requires Changing(w, uid, strategy)
    requires u == Store(w, entry).(phase := u.phase, annotations := u.annotations, nextUid := u.nextUid, pods := u.pods)
    requires Known(entry, w, uid, strategy)
    requires Live(w).None? ==> entry.None? || IsNew(entry.value, w, uid, strategy)
    requires Live(w).Some? && IsNew(Live(w).value, w, uid, strategy) ==> entry.Some? && IsNew(entry.value, w, uid, strategy)
    ensures forall i :: u.seen <= i < |u.sets| ==> Known(u.sets[i], u, uid, strategy)
    ensures forall i, j :: u.seen <= i <= j < |u.sets| && u.sets[i].None? ==>
      u.sets[j].None? || IsNew(u.sets[j].value, u, uid, strategy)
    ensures forall i, j :: u.seen <= i <= j < |u.sets| && u.sets[i].Some? && IsNew(u.sets[i].value, u, uid, strategy) ==>
      u.sets[j].Some? && IsNew(u.sets[j].value, u, uid, strategy)
  {
    var last := |w.sets| - 1;
    forall i | u.seen <= i < |u.sets|
      ensures Known(u.sets[i], u, uid, strategy)
      ensures u.sets[i].None? ==> entry.None? || IsNew(entry.value, u, uid, strategy)
      ensures u.sets[i].Some? && IsNew(u.sets[i].value, u, uid, strategy) ==> entry.Some? && IsNew(entry.value, u, uid, strategy)
    {
      if i <= last {
        assert u.sets[i] == w.sets[i] && Known(w.sets[i], w, uid, strategy);
        assert w.sets[i].None? ==> w.sets[last].None? || IsNew(w.sets[last].value, w, uid, strategy);
      }
    }
  }

  lemma ObserveKeeps(w: Cluster, n: nat, uid: nat, strategy: string)
    requires Changing(w, uid, strategy)
    ensures Changing(Step(w, Observe(n)), uid, strategy)
  {
    var u := Step(w, Observe(n));
    if u != w {
      assert Known(w.sets[u.seen], w, uid, strategy);
      assert forall ss :: IsNew(ss, u, uid, strategy) <==> IsNew(ss, w, uid, strategy);
      assert forall ss :: IsOld(ss, u, uid, strategy) <==> IsOld(ss, w, uid, strategy);
      hide Keeps, IsNew, IsOld;
    }
  }

  lemma NoticeKeeps(w: Cluster, n: nat, uid: nat, strategy: string)
    requires Changing(w, uid, strategy)
    ensures Changing(Step(w, Notice(n)), uid, strategy)
  {
    var u := Step(w, Notice(n));
    assert forall ss :: IsNew(ss, u, uid, strategy) <==> IsNew(ss, w, uid, strategy);
    assert forall ss :: IsOld(ss, u, uid, strategy) <==> IsOld(ss, w, uid, strategy);
    hide Keeps, IsNew, IsOld;
  }

  lemma CollectKeeps(w: Cluster, uid: nat, strategy: string)
    requires Changing(w, uid, strategy)
    ensures Changing(FinishDelete(w), uid, strategy) && FinishDelete(w).pods.Keys == w.pods.Keys
  {
    if Live(w).Some? && Live(w).value.deleting.Some? {
      assert Known(w.sets[|w.sets| - 1], w, uid, strategy);
      StoreKeeps(w, FinishDelete(w), None, uid, strategy);
    }
  }

  lemma RememberKeeps(w: Cluster, uid: nat, strategy: string)
    requires Changing(w, uid, strategy) && w.phase.Comparing?
    requires Cached(w).Some? && Cached(w).value.deleting.None? && Cached(w).value.storage != w.desired
    ensures Changing(OpStep(w), uid, strategy)
  {
    assert Known(w.sets[w.seen], w, uid, strategy);
    var u := OpStep(w);
    assert forall ss :: IsNew(ss, u, uid, strategy) <==> IsNew(ss, w, uid, strategy);
  }

  lemma CompareKeeps(w: Cluster, uid: nat, strategy: string)
    requires Changing(w, uid, strategy) && w.phase.Comparing?
    ensures Changing(OpStep(w), uid, strategy)
  {
    if Cached(w).Some? && Cached(w).value.deleting.None? && Cached(w).value.storage != w.desired {
      RememberKeeps(w, uid, strategy);
    } else {
      var u := OpStep(w);
      assert Known(w.sets[w.seen], w, uid, strategy);
      assert Cached(w).Some? && Cached(w).value.storage == w.desired ==> IsNew(Cached(w).value, w, uid, strategy);
      assert forall ss :: IsNew(ss, u, uid, strategy) <==> IsNew(ss, w, uid, strategy);
      assert forall ss :: IsOld(ss, u, uid, strategy) <==> IsOld(ss, w, uid, strategy);
      hide Keeps, IsNew, IsOld;
    }
  }

  // The uid precondition: a delete decided on a stale cache entry misses the new StatefulSet.
  lemma DeleteKeeps(w: Cluster, uid: nat, strategy: string)
    requires Changing(w, uid, strategy) && w.phase.Deleting?
    ensures Changing(OpStep(w), uid, strategy)
    ensures Live(w).Some? && IsNew(Live(w).value, w, uid, strategy) ==> OpStep(w) == w.(phase := Idle)
  {
    var u := OpStep(w);
    assert forall ss :: IsNew(ss, u, uid, strategy) <==> IsNew(ss, w, uid, strategy);
    if Live(w).Some? && Live(w).value.uid == uid {
      assert Known(w.sets[|w.sets| - 1], w, uid, strategy);
      StoreKeeps(w, u, Some(Live(w).value.(deleting := Some(Orphan))), uid, strategy);
    }
  }

  // What applying the strategy, or omitting it, does to the fields.
  lemma AppliedStrategy(fields: Fields<Manager>, strategy: string)
    ensures
      var u := Merged(fields, Operator, map[STRATEGY := strategy]);
      STRATEGY in u && u[STRATEGY].value == strategy && Operator in u[STRATEGY].owners
    ensures
      var u := Merged(fields, Operator, map[]);
      && (STRATEGY in u ==>
            && STRATEGY in fields && u[STRATEGY].value == fields[STRATEGY].value
            && u[STRATEGY].owners == fields[STRATEGY].owners - {Operator})
      && (STRATEGY in fields && fields[STRATEGY].owners != {Operator} ==> STRATEGY in u)
    ensures
      var u := Merged(fields, StrategyKeeper, map[STRATEGY := strategy]);
      STRATEGY in u && u[STRATEGY].value == strategy && StrategyKeeper in u[STRATEGY].owners
  {
  }

  lemma OmittingKeeps(ss: StatefulSet, strategy: string)
    requires Keeps(ss, strategy)
    ensures Keeps(ss.(fields := Merged(ss.fields, Operator, map[])), strategy)
  {
    AppliedStrategy(ss.fields, strategy);
  }

  lemma PinningKeeps(ss: StatefulSet, strategy: string)
    requires ss.Strategy() == strategy
    ensures Keeps(ss.(fields := Merged(ss.fields, StrategyKeeper, map[STRATEGY := strategy])), strategy)
  {
    AppliedStrategy(ss.fields, strategy);
  }

  lemma RecreateKeeps(w: Cluster, uid: nat, strategy: string)
    requires Changing(w, uid, strategy) && w.phase.Applying? && Cached(w).None? && Annotation(w).Some?
    ensures Changing(OpStep(w), uid, strategy)
  {
    assert Annotation(w) == Some(strategy);
    var last := |w.sets| - 1;
    assert w.sets[last].None? || IsNew(w.sets[last].value, w, uid, strategy);
    var fields := if Live(w).None? then map[] else Live(w).value.fields;
    AppliedStrategy(fields, strategy);
    var applied := ApplySet(w, Operator, Some(w.desired), map[STRATEGY := strategy], true);
    assert applied.Some?;
    var u := OpStep(w);
    assert u == applied.value.(phase := KeepingStrategy(strategy));
    hide Merged;
    StoreKeeps(w, u, Live(applied.value), uid, strategy);
  }

  lemma ApplyKeeps(w: Cluster, uid: nat, strategy: string)
    requires Changing(w, uid, strategy) && w.phase.Applying? && (Cached(w).Some? || Annotation(w).None?)
    ensures Changing(OpStep(w), uid, strategy)
  {
    var last := |w.sets| - 1;
    assert Live(w).Some? && IsNew(Live(w).value, w, uid, strategy) && Keeps(Live(w).value, strategy);
    var ss := Live(w).value;
    OmittingKeeps(ss, strategy);
    var applied := ApplySet(w, Operator, Some(w.desired), map[], true);
    assert applied == Some(Store(w, Some(ss.(fields := Merged(ss.fields, Operator, map[])))));
    var u := OpStep(w);
    hide Merged;
    StoreKeeps(w, u, Live(applied.value), uid, strategy);
  }

  lemma PinKeeps(w: Cluster, uid: nat, strategy: string)
    requires Changing(w, uid, strategy) && w.phase.KeepingStrategy?
    ensures Changing(OpStep(w), uid, strategy) && OpStep(w).phase.Forgetting?
  {
    var ss := Live(w).value;
    PinningKeeps(ss, strategy);
    var config := map[STRATEGY := strategy];
    if STRATEGY in ss.fields { assert ss.fields[STRATEGY].value == strategy; }
    assert !Conflicts(ss.fields, StrategyKeeper, config);
    var u := OpStep(w);
    assert u == Store(w, Some(ss.(fields := Merged(ss.fields, StrategyKeeper, config)))).(phase := Forgetting);
    hide Merged, Conflicts;
    StoreKeeps(w, u, Live(u), uid, strategy);
  }

  lemma ForgetKeeps(w: Cluster, uid: nat, strategy: string)
    requires Changing(w, uid, strategy) && w.phase.Forgetting?
    ensures Changing(OpStep(w), uid, strategy)
  {
    var u := OpStep(w);
    assert forall ss :: IsNew(ss, u, uid, strategy) <==> IsNew(ss, w, uid, strategy);
  }

  lemma OpKeeps(w: Cluster, uid: nat, strategy: string)
    requires Changing(w, uid, strategy)
    ensures Changing(OpStep(w), uid, strategy)
  {
    match w.phase
    case Idle =>
    case Comparing(_) => CompareKeeps(w, uid, strategy);
    case Deleting(_) => DeleteKeeps(w, uid, strategy);
    case Applying(_) =>
      if Cached(w).None? && Annotation(w).Some? { RecreateKeeps(w, uid, strategy); } else { ApplyKeeps(w, uid, strategy); }
    case KeepingStrategy(_) => PinKeeps(w, uid, strategy);
    case Forgetting => ForgetKeeps(w, uid, strategy);
  }

  lemma QuietStepKeeps(w: Cluster, l: Label, uid: nat, strategy: string)
    requires Changing(w, uid, strategy) && (l.AdoptPods? || l.Begin? || (l.Crash? && !w.phase.KeepingStrategy?))
    ensures Changing(Step(w, l), uid, strategy)
  {
    var u := Step(w, l);
    assert forall ss :: IsNew(ss, u, uid, strategy) <==> IsNew(ss, w, uid, strategy);
  }

  lemma OpKeepsPods(w: Cluster)
    requires WellFormed(w)
    ensures OpStep(w).pods == w.pods && OpStep(w).desired == w.desired
  {
  }

  lemma ChangingIsWellFormed(w: Cluster, uid: nat, strategy: string)
    requires Changing(w, uid, strategy)
    ensures WellFormed(w)
  {
  }

  lemma StepKeeps(w: Cluster, l: Label, uid: nat, strategy: string)
    requires Changing(w, uid, strategy) && !l.Edit? && (l.Crash? ==> !w.phase.KeepingStrategy?)
    ensures Changing(Step(w, l), uid, strategy)
    ensures Step(w, l).pods.Keys == w.pods.Keys && Step(w, l).desired == w.desired
  {
    hide Changing, OpStep;
    match l
    case Observe(n) => ObserveKeeps(w, n, uid, strategy);
    case Notice(n) => NoticeKeeps(w, n, uid, strategy);
    case CollectGarbage => CollectKeeps(w, uid, strategy);
    case Op => ChangingIsWellFormed(w, uid, strategy); OpKeepsPods(w); OpKeeps(w, uid, strategy);
    case AdoptPods => QuietStepKeeps(w, l, uid, strategy);
    case Begin => QuietStepKeeps(w, l, uid, strategy);
    case Crash => QuietStepKeeps(w, l, uid, strategy);
  }

  // The spec stays as it is, and the operator does not stop between the two applies of a recreate.
  ghost predicate Uncut(w0: Cluster, run: seq<Label>)
    requires WellFormed(w0)
    decreases |run|
  {
    run != [] ==>
      var before, l := run[..|run| - 1], run[|run| - 1];
      && Uncut(w0, before) && !l.Edit?
      && (l.Crash? ==> !Exec(w0, before).phase.KeepingStrategy?)
  }

  lemma {:induction false} RunKeeps(w0: Cluster, run: seq<Label>, uid: nat, strategy: string)
    requires Changing(w0, uid, strategy) && Uncut(w0, run)
    ensures Changing(Exec(w0, run), uid, strategy)
    ensures Exec(w0, run).pods.Keys == w0.pods.Keys && Exec(w0, run).desired == w0.desired
    decreases |run|
  {
    if run != [] {
      RunKeeps(w0, run[..|run| - 1], uid, strategy);
      hide Changing, Step;
      StepKeeps(Exec(w0, run[..|run| - 1]), run[|run| - 1], uid, strategy);
    }
  }

  lemma AskedIsChanging(w: Cluster, uid: nat, strategy: string)
    requires Asked(w, uid, strategy)
    ensures Changing(w, uid, strategy)
  {
  }

  // Through any run with cache lag and restarts, the StatefulSet is either the old one, or gone
  // with its strategy remembered, or the new one with the desired storage and the old strategy;
  // and every pod that was there survives.
  lemma StorageChangeKeepsStrategy(w0: Cluster, run: seq<Label>, uid: nat, strategy: string)
    requires Asked(w0, uid, strategy) && Uncut(w0, run)
    ensures
      var w := Exec(w0, run);
      && w.pods.Keys == w0.pods.Keys
      && (match Live(w)
          case None => Annotation(w) == Some(strategy)
          case Some(ss) =>
            && ss.Strategy() == strategy
            && (ss.uid == uid ==> ss.storage != w0.desired && (ss.deleting.Some? ==> Annotation(w) == Some(strategy)))
            && (ss.uid != uid ==> ss.storage == w0.desired && ss.deleting.None?))
      // the operator's later applies, which omit the strategy, would keep it
      && (Live(w).Some? && Live(w).value.uid != uid && !w.phase.KeepingStrategy? ==>
            Live(w).value.(fields := Merged(Live(w).value.fields, Operator, map[])).Strategy() == strategy)
  {
    AskedIsChanging(w0, uid, strategy);
    RunKeeps(w0, run, uid, strategy);
    var w := Exec(w0, run);
    if Live(w).Some? {
      assert Known(w.sets[|w.sets| - 1], w, uid, strategy);
      if Live(w).value.uid != uid && !w.phase.KeepingStrategy? {
        OmittingKeeps(Live(w).value, strategy);
      }
    }
  }

  // Step `k` is a delete that takes effect.
  ghost predicate DeletesAt(w0: Cluster, run: seq<Label>, k: nat)
    requires WellFormed(w0)
  {
    && k < |run| && run[k].Op?
    && var w := Exec(w0, run[..k]);
       && w.phase.Deleting? && Live(w).Some? && Live(w).value.deleting.None? && Live(w).value.uid == w.phase.uid
  }

  // The old StatefulSet is going, gone or replaced.
  ghost predicate Going(w: Cluster, uid: nat, strategy: string)
    requires WellFormed(w)
  {
    Live(w).Some? && Live(w).value.deleting.None? ==> IsNew(Live(w).value, w, uid, strategy)
  }

  lemma StaysGoing(w: Cluster, l: Label, u: Cluster, uid: nat, strategy: string)
    requires WellFormed(w) && WellFormed(u) && u == Step(w, l)
    requires Changing(w, uid, strategy) && Going(w, uid, strategy)
    requires !l.Edit? && (l.Crash? ==> !w.phase.KeepingStrategy?)
    ensures Going(u, uid, strategy)
  {
    StepKeeps(w, l, uid, strategy);
    if Live(w).Some? && Live(w).value.deleting.Some? {
      StaysDeleting(w, l, uid, strategy);
      hide Step, Changing;
    } else {
      GoneOrNew(w, u, l, uid, strategy);
      hide Step, Changing;
    }
  }

  lemma GoneOrNew(w: Cluster, u: Cluster, l: Label, uid: nat, strategy: string)
    requires Changing(w, uid, strategy) && u == Step(w, l) && WellFormed(u) && Changing(u, uid, strategy)
    requires Live(w).None? || IsNew(Live(w).value, w, uid, strategy)
    requires !l.Edit? && (l.Crash? ==> !w.phase.KeepingStrategy?)
    ensures Going(u, uid, strategy)
  {
    assert Known(u.sets[|u.sets| - 1], u, uid, strategy);
    NotTheOldOne(w, l, uid);
    hide Step, Changing;
  }

  // What takes the place of an absent StatefulSet, or of another one, is not the one with `uid`.
  lemma NotTheOldOne(w: Cluster, l: Label, uid: nat)
    requires WellFormed(w) && uid < w.nextUid && (Live(w).Some? ==> Live(w).value.uid != uid)
    ensures Live(Step(w, l)).Some? ==> Live(Step(w, l)).value.uid != uid
  {
    hide Merged, Conflicts;
  }

  // A StatefulSet on its way out comes back only as another one.
  lemma StaysDeleting(w: Cluster, l: Label, uid: nat, strategy: string)
    requires Changing(w, uid, strategy) && Live(w).Some? && Live(w).value.deleting.Some? && !l.Edit?
    ensures Live(Step(w, l)).Some? ==> Live(Step(w, l)).value.deleting.Some?
  {
    hide Merged, Conflicts;
  }

  lemma {:induction false} UncutPrefix(w0: Cluster, run: seq<Label>, k: nat)
    requires WellFormed(w0) && Uncut(w0, run) && k <= |run|
    ensures Uncut(w0, run[..k])
    ensures k < |run| ==> !run[k].Edit? && (run[k].Crash? ==> !Exec(w0, run[..k]).phase.KeepingStrategy?)
    decreases |run|
  {
    if k == |run| {
      assert run[..k] == run;
    } else if k < |run| - 1 {
      UncutPrefix(w0, run[..|run| - 1], k);
      assert run[..|run| - 1][..k] == run[..k];
    }
  }

  lemma ExecNext(w0: Cluster, run: seq<Label>, k: nat)
    requires WellFormed(w0) && k < |run|
    ensures Exec(w0, run[..k + 1]) == Step(Exec(w0, run[..k]), run[k])
  {
    assert run[..k + 1][..k] == run[..k];
  }

  lemma ChangingAt(w0: Cluster, run: seq<Label>, k: nat, uid: nat, strategy: string)
    requires Asked(w0, uid, strategy) && Uncut(w0, run) && k <= |run|
    ensures WellFormed(w0) && Changing(Exec(w0, run[..k]), uid, strategy)
    ensures k < |run| ==> !run[k].Edit? && (run[k].Crash? ==> !Exec(w0, run[..k]).phase.KeepingStrategy?)
    ensures k < |run| ==> Exec(w0, run[..k + 1]) == Step(Exec(w0, run[..k]), run[k])
  {
    AskedIsChanging(w0, uid, strategy);
    UncutPrefix(w0, run, k);
    RunKeeps(w0, run[..k], uid, strategy);
    if k < |run| {
      ExecNext(w0, run, k);
    }
    hide Changing, Exec, Uncut, Step;
  }

  lemma {:induction false} GoingAfterDelete(w0: Cluster, run: seq<Label>, j: nat, k: nat, uid: nat, strategy: string)
    requires Asked(w0, uid, strategy) && Uncut(w0, run) && DeletesAt(w0, run, j) && j < k <= |run|
    ensures Going(Exec(w0, run[..k]), uid, strategy)
    decreases k
  {
    hide *;
    ChangingAt(w0, run, k - 1, uid, strategy);
    if k - 1 == j {
      DeleteStarts(w0, run, j, uid, strategy);
    } else {
      GoingAfterDelete(w0, run, j, k - 1, uid, strategy);
      StaysGoing(Exec(w0, run[..k - 1]), run[k - 1], Exec(w0, run[..k]), uid, strategy);
    }
  }

  lemma DeleteTakesEffect(w: Cluster, uid: nat, strategy: string)
    requires WellFormed(w) && w.phase.Deleting? && Live(w).Some? && Live(w).value.uid == w.phase.uid
    ensures Going(Step(w, Op), uid, strategy)
  {
  }

  lemma DeletesThere(w0: Cluster, run: seq<Label>, j: nat)
    requires WellFormed(w0) && DeletesAt(w0, run, j)
    ensures
      var w := Exec(w0, run[..j]);
      run[j] == Op && w.phase.Deleting? && Live(w).Some? && Live(w).value.uid == w.phase.uid
  {
    hide Exec;
  }

  lemma DeleteStarts(w0: Cluster, run: seq<Label>, j: nat, uid: nat, strategy: string)
    requires WellFormed(w0) && DeletesAt(w0, run, j) && j < |run|
    ensures Going(Exec(w0, run[..j + 1]), uid, strategy)
  {
    hide *;
    DeletesThere(w0, run, j);
    ExecNext(w0, run, j);
    DeleteTakesEffect(Exec(w0, run[..j]), uid, strategy);
  }

  // However the caches lag, one storage change deletes one StatefulSet.
  lemma DeletesOnce(w0: Cluster, run: seq<Label>, j: nat, k: nat, uid: nat, strategy: string)
    requires Asked(w0, uid, strategy) && Uncut(w0, run)
    requires DeletesAt(w0, run, j) && DeletesAt(w0, run, k)
    ensures j == k
  {
    if j != k {
      var a, b := Min(j, k), Max(j, k);
      GoingAfterDelete(w0, run, a, b, uid, strategy);
      AskedIsChanging(w0, uid, strategy);
      UncutPrefix(w0, run, b);
      RunKeeps(w0, run[..b], uid, strategy);
    }
  }

  // --- Concrete runs ---

  // One more step of a concrete run.
  lemma Next(w0: Cluster, run: seq<Label>, w: Cluster, l: Label, u: Cluster) returns (longer: seq<Label>)
    requires WellFormed(w0) && Exec(w0, run) == w && Step(w, l) == u
    ensures longer == run + [l] && Exec(w0, longer) == u
  {
    longer := run + [l];
    assert longer[..|run|] == run;
  }

  // The world after the round that deletes the StatefulSet `was`.
  function Deleted(w: Cluster, was: StatefulSet): Cluster {
    w.(sets := w.sets + [Some(was.(deleting := Some(Orphan)))],
       annotations := w.annotations + [Some(was.Strategy())],
       phase := Idle)
  }

  // First round: remember the strategy, delete, and wait.
  lemma FirstRound(w: Cluster, uid: nat, strategy: string) returns (run: seq<Label>)
    requires Asked(w, uid, strategy) && w.seen == |w.sets| - 1
    ensures Exec(w, run) == Deleted(w, Live(w).value) && Live(w).value.Strategy() == strategy
    ensures forall k :: 0 <= k < |run| ==> !run[k].Edit? && !run[k].Crash?
  {
    var was := Live(w).value;
    assert IsOld(w.sets[w.seen].value, w, uid, strategy);
    var comparing := w.(phase := Comparing(w.annotations[w.noticed]));
    run := Next(w, [], w, Begin, comparing);
    var deleting := Remember(comparing, Some(strategy)).(phase := Deleting(uid));
    run := Next(w, run, comparing, Op, deleting);
    run := Next(w, run, deleting, Op, Deleted(w, was));
  }

  lemma NothingToChange(w: Cluster)
    requires WellFormed(w) && w.phase.Comparing?
    requires Cached(w).None? || (Cached(w).value.deleting.None? && Cached(w).value.storage == w.desired)
    ensures OpStep(w) == w.(phase := Applying(w.phase.cached))
  {
  }

  // Once the delete has finished and the caches show it, the pass goes as far as the first apply
  // of the recreate.
  lemma SecondRound(w0: Cluster, before: seq<Label>, w: Cluster, strategy: string) returns (run: seq<Label>, u: Cluster)
    requires WellFormed(w0) && Exec(w0, before) == w
    requires w.phase.Idle? && Live(w).Some? && Live(w).value.deleting == Some(Orphan) && Annotation(w) == Some(strategy)
    requires forall k :: 0 <= k < |before| ==> !before[k].Edit? && !before[k].Crash?
    ensures forall k :: 0 <= k < |run| ==> !run[k].Edit? && !run[k].Crash?
    ensures Exec(w0, run) == u && u.phase == KeepingStrategy(strategy) && u.desired == w.desired
    ensures Live(u) == Some(StatefulSet(w.nextUid, w.desired, map[STRATEGY := Field(strategy, {Operator})], None))
    ensures Annotation(u) == Some(strategy)
  {
    hide OpStep, Exec;
    var gone := FinishDelete(w);
    run := Next(w0, before, w, CollectGarbage, gone);
    var last := |gone.sets| - 1;
    var seeing := gone.(seen := last);
    run := Next(w0, run, gone, Observe(last), seeing);
    var comparing := seeing.(phase := Comparing(seeing.annotations[seeing.noticed]));
    run := Next(w0, run, seeing, Begin, comparing);
    var applying := seeing.(phase := Applying(seeing.annotations[seeing.noticed]));
    NothingToChange(comparing);
    run := Next(w0, run, comparing, Op, applying);
    u := OpStep(applying);
    RecreatesWith(applying, strategy);
    run := Next(w0, run, applying, Op, u);
  }

  lemma RecreatesWith(w: Cluster, strategy: string)
    requires WellFormed(w) && w.phase.Applying? && Cached(w).None? && Live(w).None? && Annotation(w) == Some(strategy)
    ensures
      var ss := StatefulSet(w.nextUid, w.desired, map[STRATEGY := Field(strategy, {Operator})], None);
      OpStep(w) == Store(w, Some(ss)).(nextUid := w.nextUid + 1, phase := KeepingStrategy(strategy))
  {
    assert Merged<Manager>(map[], Operator, map[STRATEGY := strategy]) == map[STRATEGY := Field(strategy, {Operator})];
  }

  // --- Where it does not hold ---

  lemma OmittingDrops(w: Cluster, strategy: string)
    requires WellFormed(w) && w.phase.Applying? && Cached(w).Some? && Live(w).Some? && Live(w).value.storage == w.desired
    requires Live(w).value.fields == map[STRATEGY := Field(strategy, {Operator})]
    ensures Live(OpStep(w)).Some? && Live(OpStep(w)).value.Strategy() == DEFAULT_STRATEGY
  {
    assert Merged(Live(w).value.fields, Operator, map[]) == map[];
  }

  // The pass after a recreate that stopped between its two applies.
  lemma PassAfterCut(w0: Cluster, before: seq<Label>, w: Cluster, strategy: string) returns (run: seq<Label>)
    requires WellFormed(w0) && Exec(w0, before) == w && w.phase == KeepingStrategy(strategy)
    requires Live(w).Some? && Live(w).value.storage == w.desired && Live(w).value.deleting.None?
    requires Live(w).value.fields == map[STRATEGY := Field(strategy, {Operator})]
    requires forall k :: 0 <= k < |before| ==> !before[k].Edit?
    ensures Live(Exec(w0, run)).Some? && Live(Exec(w0, run)).value.Strategy() == DEFAULT_STRATEGY
    ensures forall k :: 0 <= k < |run| ==> !run[k].Edit?
  {
    hide OpStep, Exec;
    var stopped := w.(phase := Idle);
    run := Next(w0, before, w, Crash, stopped);
    var last := |stopped.sets| - 1;
    var seeing := stopped.(seen := last);
    run := Next(w0, run, stopped, Observe(last), seeing);
    var cached := seeing.annotations[seeing.noticed];
    var comparing := seeing.(phase := Comparing(cached));
    run := Next(w0, run, seeing, Begin, comparing);
    var applying := seeing.(phase := Applying(cached));
    NothingToChange(comparing);
    run := Next(w0, run, comparing, Op, applying);
    OmittingDrops(applying, strategy);
    run := Next(w0, run, applying, Op, OpStep(applying));
  }

  // Stopping between the two applies of a recreate leaves the strategy with the operator alone,
  // and the next pass drops it: every storage change can lose a strategy this way.
  lemma CutRecreateLosesStrategy(w: Cluster, uid: nat, strategy: string) returns (run: seq<Label>)
    requires Asked(w, uid, strategy) && w.seen == |w.sets| - 1
    ensures Live(Exec(w, run)).Some? && Live(Exec(w, run)).value.Strategy() == "RollingUpdate"
    ensures forall k :: 0 <= k < |run| ==> !run[k].Edit?
  {
    run := FirstRound(w, uid, strategy);
    hide OpStep, Asked, Exec;
    var deleted := Deleted(w, Live(w).value);
    var recreated: Cluster;
    run, recreated := SecondRound(w, run, deleted, strategy);
    run := PassAfterCut(w, run, recreated, strategy);
  }

  lemma CreatesWithDefault(w: Cluster)
    requires WellFormed(w) && w.phase.Applying? && Cached(w).Some? && Live(w).None?
    ensures Live(OpStep(w)).Some? && Live(OpStep(w)).value.Strategy() == DEFAULT_STRATEGY
  {
    assert Merged<Manager>(map[], Operator, map[]) == map[];
  }

  // The pass that takes the old StatefulSet, still in its cache, for what is desired again.
  lemma PassAfterRevert(w0: Cluster, before: seq<Label>, w: Cluster, was: StatefulSet)
    returns (run: seq<Label>, u: Cluster)
    requires WellFormed(w0) && Exec(w0, before) == w && w.phase.Idle?
    requires Cached(w) == Some(was) && was.deleting.None?
    requires forall k :: 0 <= k < |before| ==> !before[k].Crash?
    ensures Exec(w0, run) == u && u == w.(desired := was.storage, phase := Applying(w.annotations[w.noticed]))
    ensures forall k :: 0 <= k < |run| ==> !run[k].Crash?
  {
    hide OpStep, Exec;
    var reverted := w.(desired := was.storage);
    run := Next(w0, before, w, Edit(was.storage), reverted);
    var comparing := reverted.(phase := Comparing(w.annotations[w.noticed]));
    run := Next(w0, run, reverted, Begin, comparing);
    u := reverted.(phase := Applying(w.annotations[w.noticed]));
    NothingToChange(comparing);
    run := Next(w0, run, comparing, Op, u);
  }

  // Reverting the storage while the old StatefulSet is gone but still cached: the pass takes it
  // for unchanged, and its plain apply creates one with the default strategy.
  lemma RevertedChangeLosesStrategy(w: Cluster, uid: nat, strategy: string) returns (run: seq<Label>)
    requires Asked(w, uid, strategy) && w.seen == |w.sets| - 1
    ensures Live(Exec(w, run)).Some? && Live(Exec(w, run)).value.Strategy() == "RollingUpdate"
    ensures forall k :: 0 <= k < |run| ==> !run[k].Crash?
  {
    var was := Live(w).value;
    assert was.deleting.None?;
    run := FirstRound(w, uid, strategy);
    hide OpStep, Exec, Asked;
    var deleted := Deleted(w, was);
    var gone := FinishDelete(deleted);
    run := Next(w, run, deleted, CollectGarbage, gone);
    var applying: Cluster;
    run, applying := PassAfterRevert(w, run, gone, was);
    CreatesWithDefault(applying);
    run := Next(w, run, applying, Op, OpStep(applying));
  }

  lemma OmittingForgets(w: Cluster)
    requires WellFormed(w) && w.phase.Applying? && Cached(w).Some? && w.phase.cached.Some?
    requires Live(w).Some? && Live(w).value.storage == w.desired && Live(w).value.deleting.Some?
    ensures OpStep(w).phase.Forgetting? && Live(OpStep(w)).Some? && Live(OpStep(w)).value.deleting.Some?
  {
    hide Merged;
  }

  lemma ForgetsWhileGoing(w0: Cluster, before: seq<Label>, w: Cluster) returns (run: seq<Label>)
    requires WellFormed(w0) && Exec(w0, before) == w
    requires w.phase.Applying? && Cached(w).Some? && w.phase.cached.Some?
    requires Live(w).Some? && Live(w).value.storage == w.desired && Live(w).value.deleting.Some?
    requires forall k :: 0 <= k < |before| ==> !before[k].Crash?
    ensures Live(Exec(w0, run)).None? && Annotation(Exec(w0, run)).None?
    ensures forall k :: 0 <= k < |run| ==> !run[k].Crash?
  {
    hide OpStep, Exec;
    OmittingForgets(w);
    var applied := OpStep(w);
    run := Next(w0, before, w, Op, applied);
    var forgotten := OpStep(applied);
    ForgetsNow(applied);
    run := Next(w0, run, applied, Op, forgotten);
    run := Next(w0, run, forgotten, CollectGarbage, FinishDelete(forgotten));
  }

  // Reverting the storage while the old StatefulSet is going: the pass applies to it, forgets its
  // strategy, and the delete goes through all the same.
  lemma RevertedDeletionForgets(w: Cluster, uid: nat, strategy: string) returns (run: seq<Label>)
    requires Asked(w, uid, strategy) && w.seen == |w.sets| - 1
    ensures Live(Exec(w, run)).None? && Annotation(Exec(w, run)).None?
    ensures forall k :: 0 <= k < |run| ==> !run[k].Crash?
  {
    var was := Live(w).value;
    assert was.deleting.None?;
    run := FirstRound(w, uid, strategy);
    hide OpStep, Exec, Asked;
    var deleted := Deleted(w, was);
    var noticed := |deleted.annotations| - 1;
    var noticing := deleted.(noticed := noticed);
    run := Next(w, run, deleted, Notice(noticed), noticing);
    var applying: Cluster;
    run, applying := PassAfterRevert(w, run, noticing, was);
    run := ForgetsWhileGoing(w, run, applying);
  }

  lemma ForgetsNow(w: Cluster)
    requires WellFormed(w) && w.phase.Forgetting?
    ensures OpStep(w) == Remember(w, None).(phase := Idle)
  {
  }
}
