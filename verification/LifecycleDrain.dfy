// A deletion that drains comes to its end: over runs of whole passes, with every deadline stamped
// at the instant it is written (cleanup.rs, controller.rs, replicaset.rs).
module LifecycleDrain {
  import opened Base
  import opened Usage
  import opened Policy
  import opened Restate
  import opened Registration
  import opened Cleanup
  import opened Lifecycle
  import opened LifecycleInvariant
  import opened LifecycleCleaning
  import opened LifecycleSafety

  // Every deadline lies at or before `t`.
  ghost predicate DueBy(versions: map<Name, Version>, t: Time) {
    forall n, at :: n in versions && versions[n].removeAt == Some(At(at)) ==> at <= t
  }

  ghost predicate AllStamped(versions: map<Name, Version>) {
    forall n :: n in versions ==> versions[n].removeAt.Some? && versions[n].removeAt.value.At?
  }

  predicate StampedBy(v: Version, t: Time) {
    v.removeAt.Some? && v.removeAt.value.At? && v.removeAt.value.time <= t
  }

  // As far as the pass was told, no invocation is in flight on any version.
  ghost predicate NothingInFlight(versions: map<Name, Version>, usage: UsageMap) {
    forall n :: n in versions && UsageFor(usage, versions[n]).Some? ==>
      UsageFor(usage, versions[n]).value.InFlight() == 0
  }

  // A deletion pass from its beginning to its end that finds nothing in flight. Around its steps
  // invocations, other registrations, time and edits of the spec go on.
  ghost predicate QuietPass(w: World, run: seq<Label>) {
    && w.phase.Idle? && w.rsd.deletedAt.Some? && run != [] && run[0] == Begin(false)
    && (forall k :: 1 <= k < |run| ==> !run[k].Begin? && !run[k].Crash?)
    && (forall k {:trigger run[..k]} :: 0 <= k <= |run| ==> PlansQuietly(Exec(w, run[..k])))
    && (Exec(w, run).phase.Idle? || Exec(w, run).phase.Released?)
  }

  ghost predicate PlansQuietly(w: World) {
    w.phase.Planning? ==> NothingInFlight(w.versions, w.phase.snapshot)
  }

  // --- What a pass leaves ---

  // Whether the pass could only find every version due.
  ghost predicate AllPast(w0: World, last: Time) {
    AllStamped(w0.versions) && last < w0.clock
  }

  // What the queue will have done by its end, for each version still there.
  ghost predicate Draining(w: World, rsd: Rsd, job: Job, last: Time, until: Time) {
    && (forall n :: n in w.versions && n in job.due ==> DeleteVersion(n) in job.queue)
    && (forall n :: n in w.versions && n !in job.due ==>
          || StampDeadline(n, rsd.DrainDelay()) in job.queue
          || StampedBy(w.versions[n], last))
    && (forall x :: x in job.queue && x.StampDeadline? ==> until + rsd.DrainDelay() <= last)
    && (job.settled <==> forall n :: n in w.versions ==> n in job.due)
    && job.active == {}
  }

  // Where a pass that began in `w0` stands, given that it ends by `until`.
  ghost predicate InPass(w0: World, w: World, last: Time, until: Time) {
    && w.versions.Keys <= w0.versions.Keys
    && match w.phase
       case QueryingForDeletion(rsd) => rsd == w0.rsd && SameButReplicas(w0.versions, w.versions)
       case Deriving(rsd, _, _) => rsd == w0.rsd && SameButReplicas(w0.versions, w.versions)
       case Planning(rsd, mode, _, except) =>
         rsd == w0.rsd && mode.IsDeleting() && except == None && SameButReplicas(w0.versions, w.versions)
       case Cleaning(rsd, mode, job) =>
         && rsd == w0.rsd && mode.IsDeleting() && Draining(w, rsd, job, last, until)
         && (AllPast(w0, last) ==> job.settled)
       case Idle => Drained(w, last) && w.versions != map[] && !AllPast(w0, last)
       case Released(clusterGone) => w.versions == map[] && !clusterGone
       case _ => false
  }

  ghost predicate Drained(w: World, last: Time) {
    AllStamped(w.versions) && DueBy(w.versions, last)
  }

  lemma {:induction false} UnstampedAreStamped(p: Pass, view: View, order: seq<Name>, h: nat, n: Name)
    requires Named(view) && n in order && n in view.versions
    requires Judge(p, view.usage, view.versions[n]).Unstamped?
    ensures StampDeadline(n, p.rsd.DrainDelay()) in PassWrites(p, view, order, h)
    decreases |order|
  {
    if order[0] !in view.versions {
      UnstampedAreStamped(p, view, order[1..], h, n);
    } else {
      var v := view.versions[order[0]];
      var turn := VersionWrites(p, view, v, h);
      if order[0] == n {
        assert turn[0] == StampDeadline(n, p.rsd.DrainDelay());
      } else {
        UnstampedAreStamped(p, view, order[1..], h + if Retains(p, view.usage, v, h) then 1 else 0, n);
      }
    }
  }

  // A drain that finds nothing in flight finds each version due, waiting or without a deadline.
  lemma QuietVerdict(p: Pass, usage: UsageMap, v: Version, last: Time)
    requires p.mode.IsDeleting()
    requires UsageFor(usage, v).Some? ==> UsageFor(usage, v).value.InFlight() == 0
    requires forall at :: v.removeAt == Some(At(at)) ==> at <= last
    ensures !Judge(p, usage, v).Blocked?
    ensures Judge(p, usage, v).Waiting? ==> StampedBy(v, last)
    ensures Judge(p, usage, v).Unstamped? ==> v.removeAt.None? || v.removeAt.value.Unreadable?
    ensures v.removeAt.Some? && v.removeAt.value.At? && last < p.now ==> Judge(p, usage, v).Due?
  {
  }

  // The job a quiet pass plans.
  lemma QuietJob(p: Pass, view: View, order: seq<Name>, last: Time, until: Time)
    requires Named(view) && p.mode.IsDeleting() && IsNewestFirst(order, view.versions, None)
    requires NothingInFlight(view.versions, view.usage) && DueBy(view.versions, last)
    requires AllStamped(view.versions) || until + p.rsd.DrainDelay() <= last
    ensures
      var job := JobFor(p, view, order);
      && (forall n :: n in view.versions && n in job.due ==> DeleteVersion(n) in job.queue)
      && (forall n :: n in view.versions && n !in job.due ==>
            StampDeadline(n, p.rsd.DrainDelay()) in job.queue || StampedBy(view.versions[n], last))
      && (forall x :: x in job.queue && x.StampDeadline? ==> until + p.rsd.DrainDelay() <= last)
      && (job.settled <==> forall n :: n in view.versions ==> n in job.due)
      && job.active == {}
      && (AllStamped(view.versions) && last < p.now ==> job.settled)
  {
    var job := JobFor(p, view, order);
    forall n | n in view.versions
      ensures !Judge(p, view.usage, view.versions[n]).Blocked?
      ensures n in job.due ==> DeleteVersion(n) in job.queue
      ensures n !in job.due ==>
        StampDeadline(n, p.rsd.DrainDelay()) in job.queue || StampedBy(view.versions[n], last)
      ensures AllStamped(view.versions) && last < p.now ==> n in job.due
    {
      QuietVerdict(p, view.usage, view.versions[n], last);
      if Judge(p, view.usage, view.versions[n]).Due? {
        DeletionsDeleteEverythingDue(p, view, order, 0, n);
      } else if Judge(p, view.usage, view.versions[n]).Unstamped? {
        UnstampedAreStamped(p, view, order, 0, n);
      }
    }
    WritesMatchVerdicts(p, view, order, 0);
    forall x | x in job.queue && x.StampDeadline? ensures until + p.rsd.DrainDelay() <= last {
      QuietVerdict(p, view.usage, view.versions[x.name], last);
    }
  }

  lemma PlannedIsDraining(w: World, order: seq<Name>, last: Time, until: Time)
    requires IdsAreOwn(w) && w.phase.Planning? && w.phase.mode.IsDeleting() && PlansQuietly(w)
    requires IsNewestFirst(order, w.versions, None) && DueBy(w.versions, last)
    requires AllStamped(w.versions) || until + w.phase.rsd.DrainDelay() <= last
    ensures Draining(w, w.phase.rsd, PlannedJob(w, order), last, until)
    ensures AllStamped(w.versions) && last < w.clock ==> PlannedJob(w, order).settled
  {
    var p := Pass(ReplicaSets, w.phase.rsd, w.phase.mode, w.clock);
    var view := View(w.versions, w.phase.snapshot, w.hpas);
    QuietJob(p, view, order, last, until);
    assert PlannedJob(w, order) == JobFor(p, view, order);
    hide JobFor, IsNewestFirst, AllStamped, DueBy, PlannedJob;
  }

  lemma PlanningStays(w0: World, w: World, c: Choice, last: Time, until: Time)
    requires IdsAreOwn(w) && InPass(w0, w, last, until) && w.phase.Planning? && PlansQuietly(w)
    requires DueBy(w0.versions, last) && (AllStamped(w0.versions) || until + w0.rsd.DrainDelay() <= last)
    requires w0.clock <= w.clock
    ensures InPass(w0, Step(w, Op(c)), last, until)
  {
    if IsNewestFirst(c.order, w.versions, None) {
      PlannedIsDraining(w, c.order, last, until);
      PlanningStep(w, c);
      EntersCleaning(w0, w, Step(w, Op(c)), PlannedJob(w, c.order), last, until);
      hide *;
    } else {
      NothingPlanned(w, c);
      hide Step, IsNewestFirst, InPass, PlansQuietly;
    }
  }

  lemma NothingPlanned(w: World, c: Choice)
    requires w.phase.Planning? && !IsNewestFirst(c.order, w.versions, w.phase.except)
    ensures Step(w, Op(c)) == w
  {
  }

  lemma EntersCleaning(w0: World, w: World, u: World, job: Job, last: Time, until: Time)
    requires InPass(w0, w, last, until) && w.phase.Planning? && w0.clock <= w.clock
    requires u == w.(phase := Cleaning(w.phase.rsd, w.phase.mode, job))
    requires Draining(w, w.phase.rsd, job, last, until)
    requires AllStamped(w.versions) && last < w.clock ==> job.settled
    ensures InPass(w0, u, last, until)
  {
    DrainingIgnoresPhase(w, u, w.phase.rsd, job, last, until);
    hide Draining, AllStamped;
  }

  // One write of a drain, by its class.
  lemma DrainWrite(w: World, rsd: Rsd, mode: CleanupMode, job: Job)
    requires JobOk(w, rsd, mode, job) && job.active == {} && job.queue != []
    ensures
      var x := job.queue[0];
      CleaningWrite(x) && !x.ClearDeadline? && !x.EnsureHpa? && Suits(x, rsd, job)
  {
    var x := job.queue[0];
    assert x in job.queue && Classified(x, rsd, job.active, job.due, job.unstamped, w.server.minted);
  }

  // What such a write does to the versions.
  ghost predicate Touches(w: World, x: Write, u: World) {
    && (forall n :: n in u.versions <==> n in w.versions && !(x.DeleteVersion? && n == x.name))
    && (forall n :: n in u.versions && !(x.StampDeadline? && n == x.name) ==>
          u.versions[n].removeAt == w.versions[n].removeAt)
    && (x.StampDeadline? && x.name in w.versions ==> u.versions[x.name].removeAt == Some(At(w.clock + x.delay)))
  }

  lemma WriteTouches(w: World, x: Write)
    requires IdsAreOwn(w) && CleaningWrite(x) && !x.ClearDeadline?
    ensures Touches(w, x, Apply(w, x))
  {
    ApplyFacts(w, x);
  }

  ghost predicate Suits(x: Write, rsd: Rsd, job: Job) {
    && (!x.StampDeadline? ==> x.name in job.due)
    && (x.StampDeadline? ==> x.name !in job.due && x.delay == rsd.DrainDelay())
  }

  lemma QueueShrinks(queue: seq<Write>)
    requires queue != []
    ensures forall y :: y in queue <==> y == queue[0] || y in queue[1..]
  {
  }

  lemma WriteKeepsDraining(w: World, u: World, rsd: Rsd, job: Job, last: Time, until: Time)
    requires Draining(w, rsd, job, last, until) && job.queue != [] && w.clock <= until
    requires Touches(w, job.queue[0], u) && Suits(job.queue[0], rsd, job)
    ensures Draining(u, rsd, job.(queue := job.queue[1..]), last, until)
    ensures u.versions.Keys <= w.versions.Keys
  {
    QueueShrinks(job.queue);
    var x, rest := job.queue[0], job.queue[1..];
    forall n | n in u.versions && n !in job.due
      ensures
        || StampDeadline(n, rsd.DrainDelay()) in rest
        || StampedBy(u.versions[n], last)
    {
      if x.StampDeadline? && n == x.name {
        assert until + rsd.DrainDelay() <= last;
      }
    }
  }

  lemma CleaningStays(w0: World, w: World, c: Choice, last: Time, until: Time)
    requires Inv(w) && InPass(w0, w, last, until) && w.phase.Cleaning? && w.clock <= until
    ensures InPass(w0, Step(w, Op(c)), last, until)
  {
    hide Step, Apply, JobOk, Touches, AllPast;
    var job := w.phase.job;
    if job.queue != [] {
      DrainWrite(w, w.phase.rsd, w.phase.mode, job);
      hide Draining;
      CleaningStep(w, c);
      var rest := w.(phase := Cleaning(w.phase.rsd, w.phase.mode, job.(queue := job.queue[1..])));
      DrainingIgnoresPhase(w, rest, w.phase.rsd, job, last, until);
      WriteTouches(rest, job.queue[0]);
      WriteKeepsDraining(rest, Apply(rest, job.queue[0]), w.phase.rsd, job, last, until);
      ApplyKeepsPhase(rest, job.queue[0]);
    } else {
      CompletionStays(w0, w, c, last, until);
    }
  }

  lemma ApplyKeepsPhase(w: World, x: Write)
    ensures Apply(w, x).phase == w.phase
  {
  }

  lemma DrainingIgnoresPhase(w: World, u: World, rsd: Rsd, job: Job, last: Time, until: Time)
    requires Draining(w, rsd, job, last, until) && u == w.(phase := u.phase)
    ensures Draining(u, rsd, job, last, until)
  {
  }

  lemma CompletionStays(w0: World, w: World, c: Choice, last: Time, until: Time)
    requires InPass(w0, w, last, until) && w.phase.Cleaning? && w.phase.job.queue == []
    ensures InPass(w0, Step(w, Op(c)), last, until)
  {
    if w.phase.job.settled {
      assert forall n :: n !in w.versions;
      assert w.versions == map[];
    } else {
      var n :| n in w.versions && n !in w.phase.job.due;
    }
  }

  lemma StaysInPass(w0: World, w: World, l: Label, last: Time, until: Time)
    requires Inv(w) && InPass(w0, w, last, until) && PlansQuietly(w) && !l.Begin? && !l.Crash?
    requires DueBy(w0.versions, last) && (AllStamped(w0.versions) || until + w0.rsd.DrainDelay() <= last)
    requires w0.rsd.deletedAt.Some? && w0.clock <= w.clock <= until
    ensures InPass(w0, Step(w, l), last, until)
  {
    if l.Op? {
      match w.phase
      case Planning(_, _, _, _) => PlanningStays(w0, w, l.choice, last, until);
      case Cleaning(_, _, _) => CleaningStays(w0, w, l.choice, last, until);
      case _ => hide Inv, UsageOf;
    } else {
      AroundStaysInPass(w0, w, l, last, until);
    }
  }

  lemma AroundStaysInPass(w0: World, w: World, l: Label, last: Time, until: Time)
    requires InPass(w0, w, last, until) && (l.Env? || l.Tick? || l.Edit? || l.Autoscale?)
    ensures InPass(w0, Step(w, l), last, until)
  {
    hide Environment, AllPast;
    if w.phase.Cleaning? {
      assert Draining(Step(w, l), w.phase.rsd, w.phase.job, last, until);
    }
  }

  lemma {:induction false} ClockOnly(w0: World, run: seq<Label>, k: nat)
    requires k <= |run|
    ensures Exec(w0, run[..k]).clock <= Exec(w0, run).clock
    decreases |run|
  {
    if k == |run| {
      assert run[..k] == run;
    } else {
      var before := run[..|run| - 1];
      assert before[..k] == run[..k];
      ClockOnly(w0, before, k);
      StepClock(Exec(w0, before), run[|run| - 1]);
    }
  }

  lemma StepClock(w: World, l: Label)
    ensures w.clock <= Step(w, l).clock
  {
    hide Effect, Environment, AdoptionWrites, JobFor, IsNewestFirst, ListsOwned, UsageOf, PlanRegistration;
  }

  lemma PassBegins(w0: World, run: seq<Label>, last: Time, until: Time)
    requires Inv(w0) && QuietPass(w0, run)
    ensures
      var w := Exec(w0, run[..1]);
      Inv(w) && InPass(w0, w, last, until) && w0.clock == w.clock
  {
    ExecNext(w0, run, 0);
    StepKeepsInvariant(w0, Begin(false));
    assert run[..0] == [];
    hide Inv, PlansQuietly;
  }

  // Where a quiet pass stands after each of its steps.
  lemma {:induction false} PassSoFar(w0: World, run: seq<Label>, k: nat, last: Time)
    requires Inv(w0) && QuietPass(w0, run) && 1 <= k <= |run| && DueBy(w0.versions, last)
    requires AllStamped(w0.versions) || Exec(w0, run).clock + w0.rsd.DrainDelay() <= last
    ensures Inv(Exec(w0, run[..k])) && InPass(w0, Exec(w0, run[..k]), last, Exec(w0, run).clock)
    ensures w0.clock <= Exec(w0, run[..k]).clock
    decreases k
  {
    hide *;
    if k == 1 {
      PassBegins(w0, run, last, Exec(w0, run).clock);
    } else {
      PassSoFar(w0, run, k - 1, last);
      ExecNext(w0, run, k - 1);
      var w := Exec(w0, run[..k - 1]);
      StepClock(w, run[k - 1]);
      ClockOnly(w0, run, k - 1);
      PlansQuietlyAt(w0, run, k - 1);
      LabelInPass(w0, run, k - 1);
      StepKeepsInvariant(w, run[k - 1]);
      StaysInPass(w0, w, run[k - 1], last, Exec(w0, run).clock);
    }
  }

  lemma ExecNext(w0: World, run: seq<Label>, k: nat)
    requires k < |run|
    ensures Exec(w0, run[..k + 1]) == Step(Exec(w0, run[..k]), run[k])
  {
    assert run[..k + 1][..k] == run[..k] && run[..k + 1][k] == run[k];
  }

  lemma PlansQuietlyAt(w0: World, run: seq<Label>, k: nat)
    requires QuietPass(w0, run) && k <= |run|
    ensures PlansQuietly(Exec(w0, run[..k]))
  {
  }

  lemma LabelInPass(w0: World, run: seq<Label>, k: nat)
    requires QuietPass(w0, run) && 1 <= k < |run|
    ensures !run[k].Begin? && !run[k].Crash? && w0.rsd.deletedAt.Some?
  {
  }

  // A quiet pass leaves every version stamped, with deadlines at most a drain delay after the
  // pass's end; and it releases the finalizer exactly when it leaves no version, which it does
  // once every deadline it began with is past.
  lemma QuietPassLeaves(w0: World, run: seq<Label>, last: Time)
    requires Inv(w0) && QuietPass(w0, run) && DueBy(w0.versions, last)
    requires AllStamped(w0.versions) || Exec(w0, run).clock + w0.rsd.DrainDelay() <= last
    ensures
      var w := Exec(w0, run);
      && Inv(w) && w0.clock <= w.clock && w.versions.Keys <= w0.versions.Keys
      && AllStamped(w.versions) && DueBy(w.versions, last)
      && (w.phase == Released(false) <==> w.versions == map[])
      && (w.phase.Idle? <==> w.versions != map[])
      && (AllPast(w0, last) ==> w.phase == Released(false))
  {
    PassSoFar(w0, run, |run|, last);
    assert run[..|run|] == run;
    hide Inv, Exec, AllPast;
  }

  // --- Pass after pass ---

  // What happens between two passes, and the pass after it.
  datatype Drain = Drain(gap: seq<Label>, pass: seq<Label>)

  ghost predicate Around(run: seq<Label>) {
    forall k :: 0 <= k < |run| ==> run[k].Env? || run[k].Tick? || run[k].Edit? || run[k].Autoscale?
  }

  ghost function AfterDrain(w: World, d: Drain): World {
    Exec(Exec(w, d.gap), d.pass)
  }

  // Quiet passes one after the other, each beginning at least a second after the one before it
  // ended.
  ghost predicate Drains(w: World, drains: seq<Drain>)
    decreases |drains|
  {
    drains != [] ==>
      var d := drains[0];
      && Around(d.gap) && QuietPass(Exec(w, d.gap), d.pass)
      && w.clock + SECOND <= Exec(w, d.gap).clock
      && Drains(AfterDrain(w, d), drains[1..])
  }

  ghost function AfterDrains(w: World, drains: seq<Drain>): World
    decreases |drains|
  {
    if drains == [] then w else AfterDrains(AfterDrain(w, drains[0]), drains[1..])
  }

  lemma GapStep(w: World, l: Label)
    requires l.Env? || l.Tick? || l.Edit? || l.Autoscale?
    ensures
      var u := Step(w, l);
      SameButReplicas(w.versions, u.versions) && u.phase == w.phase && w.clock <= u.clock
  {
    hide Environment;
  }

  lemma {:induction false} GapKeeps(w: World, run: seq<Label>)
    requires Inv(w) && Around(run)
    ensures Inv(Exec(w, run)) && SameButReplicas(w.versions, Exec(w, run).versions) && Exec(w, run).phase == w.phase
    ensures w.clock <= Exec(w, run).clock
    decreases |run|
  {
    if run != [] {
      var u, l := Exec(w, run[..|run| - 1]), run[|run| - 1];
      GapKeeps(w, run[..|run| - 1]);
      StepKeepsInvariant(u, l);
      GapStep(u, l);
    }
    hide Inv, Step;
  }

  lemma BeginsIdle(w: World, drains: seq<Drain>)
    requires Inv(w) && Drains(w, drains) && drains != []
    ensures w.phase.Idle?
  {
    GapKeeps(w, drains[0].gap);
  }

  // With every version stamped and no deadline after `last`, a pass that begins after `last`
  // releases the finalizer, so no pass follows it.
  lemma {:induction false} StampedDrainEnds(w: World, drains: seq<Drain>, last: Time)
    requires Inv(w) && Drains(w, drains) && AllStamped(w.versions) && DueBy(w.versions, last)
    ensures |drains| > 1 ==> w.clock + (|drains| - 1) * SECOND <= last
    ensures drains != [] && last < w.clock + |drains| * SECOND ==> AfterDrains(w, drains).phase == Released(false)
    decreases |drains|
  {
    if drains != [] {
      var d := drains[0];
      var begun, done := Exec(w, d.gap), AfterDrain(w, d);
      GapKeeps(w, d.gap);
      QuietPassLeaves(begun, d.pass, last);
      StampedDrainEnds(done, drains[1..], last);
      if |drains| > 1 {
        BeginsIdle(done, drains[1..]);
      }
      hide Inv, Exec, QuietPass, DueBy, AllStamped;
    }
  }

  // A drain with nothing in flight ends. After the first complete pass every version has a
  // deadline, at most `last`; passes come at least a second apart, so at most one more than the
  // seconds until then follow, and if that many do, the last of them releases the finalizer. It
  // does not matter how the spec is edited in between, or what is registered and removed.
  lemma QuietDrainEnds(w0: World, before: seq<Label>, pass: seq<Label>, drains: seq<Drain>, bound: Time)
    requires Initial(w0)
    requires
      var w := Exec(w0, before);
      && QuietPass(w, pass) && DueBy(w.versions, bound) && Drains(Exec(w, pass), drains)
    ensures
      var w := Exec(w0, before);
      var stamped := Exec(w, pass);
      var last := Max(bound, stamped.clock + w.rsd.DrainDelay());
      && (stamped.phase.Released? <==> stamped.versions == map[])
      && |drains| <= 1 + (last - stamped.clock) / SECOND
      && (|drains| == 1 + (last - stamped.clock) / SECOND ==>
            AfterDrains(stamped, drains).phase == Released(false))
  {
    hide *;
    var w := Exec(w0, before);
    InitialIsInvariant(w0);
    RunKeepsInvariant(w0, before);
    var stamped := Exec(w, pass);
    var last := Max(bound, stamped.clock + w.rsd.DrainDelay());
    LaterBound(w.versions, bound, stamped.clock + w.rsd.DrainDelay());
    QuietPassLeaves(w, pass, last);
    QuietPassEnds(w, pass);
    StampedDrainEnds(stamped, drains, last);
    SecondsUntil(last - stamped.clock, |drains|);
  }

  lemma QuietPassEnds(w: World, pass: seq<Label>)
    requires QuietPass(w, pass)
    ensures Exec(w, pass).phase.Idle? || Exec(w, pass).phase.Released?
  {
  }

  lemma LaterBound(versions: map<Name, Version>, bound: Time, other: Time)
    requires DueBy(versions, bound)
    ensures DueBy(versions, Max(bound, other)) && other <= Max(bound, other)
  {
  }

  lemma SecondsUntil(left: nat, passes: nat)
    ensures passes > 1 && (passes - 1) * SECOND <= left ==> passes <= 1 + left / SECOND
    ensures passes == 1 + left / SECOND ==> left < passes * SECOND
    ensures passes <= 1 ==> passes <= 1 + left / SECOND
  {
  }
}
