// How a storage change comes to its end: pass by pass, from wherever it stands (compute.rs).
module StorageRounds {
  import opened Base
  import opened ServerSideApply
  import opened StorageChange

  // How many more passes the change takes: one to delete the old StatefulSet, one to recreate it
  // and forget its strategy.
  ghost function Stage(w: Cluster): nat
    requires WellFormed(w)
  {
    if Live(w).Some? && Live(w).value.deleting.None? && Live(w).value.storage != w.desired then 2
    else if Live(w).Some? && Live(w).value.deleting.None? && Annotation(w).None? then 0
    else 1
  }

  // The caches show what is live, and no delete is under way.
  ghost predicate CaughtUp(w: Cluster)
    requires WellFormed(w)
  {
    && w.seen == |w.sets| - 1 && w.noticed == |w.annotations| - 1
    && (Live(w).Some? ==> Live(w).value.deleting.None?)
  }

  // A pass on caught-up caches, from its beginning to its end; the rest of the world may move at
  // any point of it.
  ghost predicate Round(w: Cluster, run: seq<Label>)
    requires WellFormed(w)
  {
    && w.phase.Idle? && CaughtUp(w) && run != [] && run[0] == Begin
    && (forall k :: 1 <= k < |run| ==> !run[k].Begin? && !run[k].Crash? && !run[k].Edit?)
    && Exec(w, run).phase.Idle?
  }

  // Where a round that started at stage `from` stands.
  ghost predicate InRound(w: Cluster, from: nat)
    requires WellFormed(w)
  {
    var last := |w.sets| - 1;
    match w.phase
    case Idle => Stage(w) == Max(0, from - 1)
    case Comparing(cached) =>
      Stage(w) == from && CaughtUp(w) && cached == Annotation(w)
    case Deleting(uid) => from == 2 && Stage(w) == 2
    case Applying(cached) =>
      from <= 1 && Stage(w) == from && CaughtUp(w) && cached == Annotation(w)
    case KeepingStrategy(_) => from == 1 && Live(w).Some?
    case Forgetting => from == 1 && Live(w).Some?
  }

  lemma ApplyAdvances(w: Cluster, uid: nat, strategy: string, from: nat)
    requires Changing(w, uid, strategy) && w.phase.Applying? && InRound(w, from)
    ensures InRound(OpStep(w), from)
  {
    assert Known(w.sets[|w.sets| - 1], w, uid, strategy);
    hide Merged, Conflicts, Keeps;
  }

  lemma PinAdvances(w: Cluster, uid: nat, strategy: string)
    requires Changing(w, uid, strategy) && w.phase.KeepingStrategy?
    ensures InRound(OpStep(w), 1)
  {
    PinKeeps(w, uid, strategy);
    hide Merged, Conflicts, Keeps;
  }

  lemma ForgetSettles(w: Cluster, uid: nat, strategy: string)
    requires Changing(w, uid, strategy) && w.phase.Forgetting?
    ensures InRound(OpStep(w), 1)
  {
  }

  lemma DeleteAdvances(w: Cluster, uid: nat, strategy: string)
    requires Changing(w, uid, strategy) && w.phase.Deleting? && Stage(w) == 2
    ensures InRound(OpStep(w), 2)
  {
    assert Known(w.sets[|w.sets| - 1], w, uid, strategy);
  }

  lemma CompareAdvances(w: Cluster, uid: nat, strategy: string, from: nat)
    requires Changing(w, uid, strategy) && w.phase.Comparing? && InRound(w, from)
    ensures InRound(OpStep(w), from)
  {
    assert Known(w.sets[|w.sets| - 1], w, uid, strategy);
    hide Keeps;
  }

  lemma OperationAdvances(w: Cluster, uid: nat, strategy: string, from: nat)
    requires Changing(w, uid, strategy) && InRound(w, from)
    ensures InRound(OpStep(w), from)
  {
    match w.phase
    case Idle =>
    case Comparing(_) => CompareAdvances(w, uid, strategy, from);
    case Deleting(_) => DeleteAdvances(w, uid, strategy);
    case Applying(_) => ApplyAdvances(w, uid, strategy, from);
    case KeepingStrategy(_) => PinAdvances(w, uid, strategy);
    case Forgetting => ForgetSettles(w, uid, strategy);
  }

  lemma AroundStays(w: Cluster, l: Label, uid: nat, strategy: string, from: nat)
    requires Changing(w, uid, strategy) && InRound(w, from)
    requires l.Observe? || l.Notice? || l.CollectGarbage? || l.AdoptPods?
    ensures InRound(Step(w, l), from)
  {
  }

  lemma {:induction false} RoundSoFar(w: Cluster, run: seq<Label>, uid: nat, strategy: string)
    requires Changing(w, uid, strategy) && w.phase.Idle? && CaughtUp(w) && run != [] && run[0] == Begin
    requires forall k :: 1 <= k < |run| ==> !run[k].Begin? && !run[k].Crash? && !run[k].Edit?
    ensures Changing(Exec(w, run), uid, strategy) && InRound(Exec(w, run), Stage(w))
    decreases |run|
  {
    var before, l := run[..|run| - 1], run[|run| - 1];
    if |run| == 1 {
      assert before == [];
      StepKeeps(w, l, uid, strategy);
    } else {
      RoundSoFar(w, before, uid, strategy);
      var u := Exec(w, before);
      StepKeeps(u, l, uid, strategy);
      if l.Op? {
        OperationAdvances(u, uid, strategy, Stage(w));
      } else {
        AroundStays(u, l, uid, strategy, Stage(w));
      }
      hide Changing, InRound, OpStep;
    }
  }

  // Every complete pass on caught-up caches brings the change one stage further, until it is
  // settled; and it leaves a settled change settled.
  lemma RoundAdvances(w: Cluster, run: seq<Label>, uid: nat, strategy: string)
    requires Changing(w, uid, strategy) && Round(w, run)
    ensures
      var u := Exec(w, run);
      && Changing(u, uid, strategy) && Stage(u) == Max(0, Stage(w) - 1)
      // settled: the new StatefulSet stands with the old strategy, and nothing is remembered
      && (Stage(w) <= 1 ==>
            && Annotation(u).None?
            && Live(u).Some? && IsNew(Live(u).value, u, uid, strategy) && Keeps(Live(u).value, strategy))
  {
    RoundSoFar(w, run, uid, strategy);
    var u := Exec(w, run);
    assert Known(u.sets[|u.sets| - 1], u, uid, strategy);
    hide Exec, Keeps;
  }

  // --- Such passes exist from everywhere ---

  // The operator steps a pass still takes.
  function Left(phase: Phase): nat {
    match phase
    case Idle => 0
    case Comparing(_) => 4
    case Applying(_) => 3
    case KeepingStrategy(_) => 2
    case Deleting(_) => 1
    case Forgetting => 1
  }

  lemma OperationEnds(w: Cluster)
    requires WellFormed(w) && !w.phase.Idle?
    ensures Left(OpStep(w).phase) < Left(w.phase)
  {
    hide Merged, Conflicts;
  }

  lemma ExecConcat(w: Cluster, a: seq<Label>, b: seq<Label>)
    requires WellFormed(w)
    ensures Exec(w, a + b) == Exec(Exec(w, a), b)
    decreases |b|
  {
    if b == [] {
      assert a + b == a;
    } else {
      ExecConcat(w, a, b[..|b| - 1]);
      assert (a + b)[..|a + b| - 1] == a + b[..|b| - 1];
    }
  }

  ghost predicate Undisturbed(run: seq<Label>) {
    forall k :: 0 <= k < |run| ==> !run[k].Begin? && !run[k].Crash? && !run[k].Edit?
  }

  // Left to itself, a pass under way comes to its end.
  lemma FinishPass(w: Cluster, uid: nat, strategy: string) returns (run: seq<Label>)
    requires Changing(w, uid, strategy)
    ensures Undisturbed(run) && Changing(Exec(w, run), uid, strategy) && Exec(w, run).phase.Idle?
    ensures Exec(w, run).desired == w.desired
  {
    run := [];
    while !Exec(w, run).phase.Idle?
      invariant Undisturbed(run) && Changing(Exec(w, run), uid, strategy) && Exec(w, run).desired == w.desired
      decreases Left(Exec(w, run).phase)
    {
      ghost var u := Exec(w, run);
      StepKeeps(u, Op, uid, strategy);
      OperationEnds(u);
      assert (run + [Op])[..|run|] == run;
      hide Changing, OpStep;
      run := run + [Op];
    }
  }

  // The garbage collector and the caches do their part.
  lemma CatchUp(w: Cluster, uid: nat, strategy: string) returns (run: seq<Label>, u: Cluster)
    requires Changing(w, uid, strategy) && w.phase.Idle?
    ensures u == Exec(w, run) && Undisturbed(run) && u.desired == w.desired
    ensures Changing(u, uid, strategy) && u.phase.Idle? && CaughtUp(u)
    ensures Stage(u) <= Stage(w)
  {
    assert WellFormed(w) && Exec(w, []) == w;
    hide Changing, Exec, Stage, CaughtUp, FinishDelete, OpStep;
    var a := Step(w, CollectGarbage);
    StepKeeps(w, CollectGarbage, uid, strategy);
    run := Next(w, [], w, CollectGarbage, a);
    var b := Step(a, Observe(|a.sets| - 1));
    StepKeeps(a, Observe(|a.sets| - 1), uid, strategy);
    run := Next(w, run, a, Observe(|a.sets| - 1), b);
    u := Step(b, Notice(|b.annotations| - 1));
    StepKeeps(b, Notice(|b.annotations| - 1), uid, strategy);
    run := Next(w, run, b, Notice(|b.annotations| - 1), u);
    CaughtUpAfter(w, a, b, u);
  }

  lemma CaughtUpAfter(w: Cluster, a: Cluster, b: Cluster, u: Cluster)
    requires WellFormed(w) && a == FinishDelete(w) && w.phase.Idle?
    requires b == a.(seen := |a.sets| - 1) && u == b.(noticed := |b.annotations| - 1)
    ensures WellFormed(u) && CaughtUp(u) && u.phase.Idle? && Stage(u) <= Stage(w)
  {
  }

  // From wherever a change stands when its pass is over, one more pass is possible.
  lemma OneRound(w: Cluster, uid: nat, strategy: string) returns (run: seq<Label>)
    requires Changing(w, uid, strategy) && w.phase.Idle? && CaughtUp(w)
    ensures Round(w, run) && Exec(w, run).desired == w.desired
  {
    var u := Step(w, Begin);
    StepKeeps(w, Begin, uid, strategy);
    assert Exec(w, []) == w;
    var begun := Next(w, [], w, Begin, u);
    var rest := FinishPass(u, uid, strategy);
    ExecConcat(w, begun, rest);
    run := begun + rest;
    hide Changing, Exec, CaughtUp;
  }

  // A run that only the operator's passes and the caches make up.
  ghost predicate LeftAlone(run: seq<Label>) {
    forall k :: 0 <= k < |run| ==> !run[k].Crash? && !run[k].Edit?
  }

  lemma LeftAloneTogether(a: seq<Label>, u: Cluster, b: seq<Label>)
    requires Undisturbed(a) && WellFormed(u) && Round(u, b)
    ensures LeftAlone(a + b)
  {
    hide Exec, CaughtUp;
  }

  lemma RoundEndsIdle(u: Cluster, b: seq<Label>)
    requires WellFormed(u) && Round(u, b)
    ensures Exec(u, b).phase.Idle?
  {
  }

  // A caught-up pass from an idle point of the change.
  lemma AnotherRound(w: Cluster, uid: nat, strategy: string) returns (run: seq<Label>)
    requires Changing(w, uid, strategy) && w.phase.Idle?
    ensures
      var u := Exec(w, run);
      && LeftAlone(run) && Changing(u, uid, strategy) && u.phase.Idle? && u.desired == w.desired
      && Stage(u) <= Max(0, Stage(w) - 1)
      && (Stage(w) <= 1 ==>
            && Annotation(u).None?
            && Live(u).Some? && IsNew(Live(u).value, u, uid, strategy) && Keeps(Live(u).value, strategy))
  {
    var a, u := CatchUp(w, uid, strategy);
    var b := OneRound(u, uid, strategy);
    RoundAdvances(u, b, uid, strategy);
    RoundEndsIdle(u, b);
    ExecConcat(w, a, b);
    LeftAloneTogether(a, u, b);
    run := a + b;
    hide *;
  }

  // From wherever a change stands, whatever was interrupted before, two passes settle it: the new
  // StatefulSet has the desired storage and the old strategy, and nothing is remembered.
  lemma ChangeSettles(w: Cluster, uid: nat, strategy: string) returns (run: seq<Label>)
    requires Changing(w, uid, strategy)
    ensures LeftAlone(run)
    ensures
      var u := Exec(w, run);
      && u.phase.Idle? && Annotation(u).None?
      && Live(u).Some? && IsNew(Live(u).value, w, uid, strategy) && Keeps(Live(u).value, strategy)
  {
    var a := FinishPass(w, uid, strategy);
    var u := Exec(w, a);
    assert Stage(u) <= 2;
    hide Changing, Exec, Keeps, Stage;
    var b := AnotherRound(u, uid, strategy);
    ExecConcat(w, a, b);
    var v := Exec(u, b);
    var c := AnotherRound(v, uid, strategy);
    ExecConcat(w, a + b, c);
    run := a + b + c;
  }
}
