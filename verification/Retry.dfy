// How often a deployment goes back to Restate's admin API (retry.rs), and what the stored
// Ready condition makes of an unbroken streak of failures (controller.rs).
module Retry {
  import opened Base

  const FLOOR: int := 30 * SECOND
  const CEILING: int := 300 * SECOND

  // A quarter of the time waited so far, within bounds.
  function Backoff(waited: nat): nat {
    Min(Max(waited / 4, FLOOR), CEILING)
  }

  // Half a minute for the first two minutes, a quarter of the time waited up to twenty, and five
  // minutes from then on.
  ghost predicate IsQuarter(wait: int, waited: nat) {
    && (waited <= 120 * SECOND ==> wait == 30 * SECOND)
    && (120 * SECOND <= waited <= 1200 * SECOND ==> wait == waited / 4)
    && (1200 * SECOND <= waited ==> wait == 300 * SECOND)
  }

  lemma BackoffIsQuarter(waited: nat)
    ensures forall wait :: IsQuarter(wait, waited) <==> wait == Backoff(waited)
  {
  }

  // --- How many checks a blocked deletion makes ---

  // Each check follows the previous one by at least the backoff of the time waited by then.
  ghost predicate Paced(checks: seq<Time>) {
    && (forall k :: 0 <= k < |checks| ==> 0 <= checks[k])
    && (forall k :: 0 <= k < |checks| - 1 ==> checks[k] + Backoff(checks[k]) <= checks[k + 1])
  }

  // Times, in seconds, that the first sixteen checks cannot come before.
  const MILESTONES: seq<int> :=
    [0, 30, 60, 90, 120, 150, 187, 233, 291, 363, 453, 566, 707, 883, 1103, 1378]

  lemma MilestonesAreSteps(k: nat, t: Time)
    requires k < 15 && MILESTONES[k] * SECOND <= t
    ensures MILESTONES[k + 1] * SECOND <= t + Backoff(t)
  {
  }

  lemma {:induction false} EarliestCheck(checks: seq<Time>, k: nat)
    requires Paced(checks) && k < |checks|
    ensures (if k < 16 then MILESTONES[k] else 1378 + 300 * (k - 15)) * SECOND <= checks[k]
    decreases k
  {
    if k > 0 {
      EarliestCheck(checks, k - 1);
      assert checks[k - 1] + Backoff(checks[k - 1]) <= checks[k];
      if k < 16 {
        MilestonesAreSteps(k - 1, checks[k - 1]);
      }
    }
  }

  // The checks in the first `horizon` seconds of a wait number at most 12 + horizon / 300: only a
  // dozen come on top of the routine rate, however long the wait.
  lemma ChecksAreBounded(checks: seq<Time>, horizon: nat)
    requires Paced(checks) && forall k :: 0 <= k < |checks| ==> checks[k] <= horizon * SECOND
    ensures |checks| <= 12 + horizon / 300
  {
    if |checks| > 0 {
      EarliestCheck(checks, |checks| - 1);
    }
  }

  // Each check follows the previous one by exactly that.
  ghost predicate PacedExactly(checks: seq<Time>) {
    && (checks != [] ==> checks[0] == 0)
    && (forall k :: 0 <= k < |checks| ==> 0 <= checks[k])
    && (forall k :: 0 <= k < |checks| - 1 ==> IsQuarter(checks[k + 1] - checks[k], checks[k]))
  }

  // Times, in seconds, that the first sixteen such checks cannot come after.
  const LIMITS: seq<int> :=
    [0, 30, 60, 90, 120, 150, 188, 235, 294, 368, 460, 575, 719, 899, 1124, 1405]

  lemma LimitsAreSteps(k: nat, t: Time, wait: int)
    requires k < 15 && 0 <= t <= LIMITS[k] * SECOND && IsQuarter(wait, t)
    ensures t + wait <= LIMITS[k + 1] * SECOND
  {
  }

  lemma {:induction false} LatestCheck(checks: seq<Time>, k: nat)
    requires PacedExactly(checks) && k < |checks|
    ensures checks[k] <= (if k < 16 then LIMITS[k] else 1405 + 300 * (k - 15)) * SECOND
    decreases k
  {
    if k > 0 {
      LatestCheck(checks, k - 1);
      if k < 16 {
        LimitsAreSteps(k - 1, checks[k - 1], checks[k] - checks[k - 1]);
      }
    }
  }

  // Once past the first 1405 seconds there have been at least 11 + horizon / 300 checks: the bound
  // above leaves at most one more.
  lemma ChecksKeepComing(checks: seq<Time>, horizon: nat)
    requires PacedExactly(checks) && checks != [] && horizon >= 1405 && horizon * SECOND < checks[|checks| - 1]
    ensures |checks| - 1 >= 11 + horizon / 300
  {
    LatestCheck(checks, |checks| - 1);
  }

  // Checks paced exactly are paced, so both bounds hold of them.
  lemma ExactlyPacedIsPaced(checks: seq<Time>)
    ensures PacedExactly(checks) ==> Paced(checks)
  {
    if PacedExactly(checks) {
      forall k | 0 <= k < |checks| - 1 ensures checks[k] + Backoff(checks[k]) <= checks[k + 1] {
        BackoffIsQuarter(checks[k]);
      }
    }
  }

  // --- A streak of admin failures ---

  datatype Condition = Condition(status: string, reason: string, lastTransition: Option<Time>)

  predicate IsAdminFailure(reason: string) {
    reason == "AdminCallFailed" || reason == "AdminCallRejected"
  }

  // `to_std` rejects a negative difference.
  function Elapsed(since: Time, now: Time): nat {
    Max(0, now - since)
  }

  function FailingFor(ready: Option<Condition>, now: Time): nat {
    if ready.Some? && IsAdminFailure(ready.value.reason) && ready.value.lastTransition.Some?
    then Elapsed(ready.value.lastTransition.value, now)
    else 0
  }

  // The Ready condition a pass writes: the transition time moves only with the status.
  function NextCondition(ready: Option<Condition>, status: string, reason: string, now: Time): Condition {
    Condition(status, reason,
      Some(if ready.Some? && ready.value.status == status && ready.value.lastTransition.Some?
           then ready.value.lastTransition.value
           else now))
  }

  // One failed pass: when it started, how the call failed, and whether its status was stored.
  datatype Failure = Failure(now: Time, reason: string, stored: bool)

  function AfterFailure(ready: Option<Condition>, f: Failure): Option<Condition> {
    if f.stored then Some(NextCondition(ready, "False", f.reason, f.now)) else ready
  }

  function ConditionBefore(ready: Option<Condition>, streak: seq<Failure>, k: nat): Option<Condition>
    requires k <= |streak|
  {
    if k == 0 then ready else AfterFailure(ConditionBefore(ready, streak, k - 1), streak[k - 1])
  }

  // The wait, before jitter, that the `k`-th failure of a streak asks for.
  function WaitAt(ready: Option<Condition>, streak: seq<Failure>, k: nat): nat
    requires k < |streak|
  {
    Backoff(FailingFor(ConditionBefore(ready, streak, k), streak[k].now))
  }

  ghost predicate Streak(streak: seq<Failure>) {
    && (forall k :: 0 <= k < |streak| ==>
          streak[k].reason == "AdminCallFailed" || streak[k].reason == "AdminCallRejected")
    && (forall j, k :: 0 <= j <= k < |streak| ==> streak[j].now <= streak[k].now)
  }

  // An admin failure's condition always has status "False".
  ghost predicate WellWritten(ready: Option<Condition>) {
    ready.Some? && IsAdminFailure(ready.value.reason) ==> ready.value.status == "False"
  }

  lemma {:induction false} ConditionStaysWellWritten(ready: Option<Condition>, streak: seq<Failure>, k: nat)
    requires WellWritten(ready) && k <= |streak|
    ensures WellWritten(ConditionBefore(ready, streak, k))
  {
    if k > 0 {
      ConditionStaysWellWritten(ready, streak, k - 1);
    }
  }

  // While failures are unbroken the waits never shrink, even when a status write is lost.
  lemma WaitsNeverShrink(ready: Option<Condition>, streak: seq<Failure>, j: nat, k: nat)
    requires WellWritten(ready) && Streak(streak) && j <= k < |streak|
    ensures WaitAt(ready, streak, j) <= WaitAt(ready, streak, k)
    decreases k
  {
    if j < k {
      WaitsNeverShrink(ready, streak, j, k - 1);
      ConditionStaysWellWritten(ready, streak, k - 1);
      assert streak[k - 1].now <= streak[k].now;
    }
  }

  // Once one failure of the streak is stored, the stored transition is no later than it: the
  // wait may overestimate how long the calls have been failing, never underestimate it.
  lemma TransitionNeverLate(ready: Option<Condition>, streak: seq<Failure>, j: nat, k: nat)
    requires Streak(streak) && j < k <= |streak| && streak[j].stored
    requires ready.Some? && ready.value.lastTransition.Some? ==> ready.value.lastTransition.value <= streak[0].now
    ensures
      var c := ConditionBefore(ready, streak, k);
      && c.Some? && c.value.status == "False" && IsAdminFailure(c.value.reason)
      && c.value.lastTransition.Some? && c.value.lastTransition.value <= streak[j].now
    decreases k
  {
    if k == j + 1 {
      TransitionInThePast(ready, streak, j);
    } else {
      TransitionNeverLate(ready, streak, j, k - 1);
    }
  }

  // So each wait is at least what the streak alone, from any stored failure on, would ask for.
  lemma WaitCoversStreak(ready: Option<Condition>, streak: seq<Failure>, j: nat, k: nat)
    requires Streak(streak) && j < k < |streak| && streak[j].stored
    requires ready.Some? && ready.value.lastTransition.Some? ==> ready.value.lastTransition.value <= streak[0].now
    ensures Min((streak[k].now - streak[j].now) / 4, 300 * SECOND) <= WaitAt(ready, streak, k)
    ensures 30 * SECOND <= WaitAt(ready, streak, k)
  {
    TransitionNeverLate(ready, streak, j, k);
    assert streak[j].now <= streak[k].now;
  }

  // The condition before the streak says that the deployment was not failing.
  ghost predicate WasWell(ready: Option<Condition>) {
    ready.Some? ==> ready.value.status != "False" && !IsAdminFailure(ready.value.reason)
  }

  lemma {:induction false} TransitionNotBefore(ready: Option<Condition>, streak: seq<Failure>, k: nat)
    requires Streak(streak) && k <= |streak| && WasWell(ready)
    ensures
      var c := ConditionBefore(ready, streak, k);
      c == ready
      || (k > 0 && c.Some? && c.value.status == "False" && c.value.lastTransition.Some?
          && streak[0].now <= c.value.lastTransition.value)
  {
    if k > 0 {
      TransitionNotBefore(ready, streak, k - 1);
      assert streak[0].now <= streak[k - 1].now;
    }
  }

  // And no more than half a minute or a quarter of the streak: after a deployment was well, what
  // came before the streak does not count, nor does any other kind of failure.
  lemma WaitCountsOnlyStreak(ready: Option<Condition>, streak: seq<Failure>, k: nat)
    requires Streak(streak) && k < |streak| && WasWell(ready)
    ensures WaitAt(ready, streak, k) <= Max(30 * SECOND, (streak[k].now - streak[0].now) / 4)
  {
    TransitionNotBefore(ready, streak, k);
    assert streak[0].now <= streak[k].now;
  }

  // A failure that follows any other condition waits half a minute, and so does every later one
  // until a status write gets through: the operator itself remembers nothing.
  lemma FirstWaits(ready: Option<Condition>, streak: seq<Failure>, k: nat)
    requires k < |streak| && forall j :: 0 <= j < k ==> !streak[j].stored
    requires ready.Some? ==>
      ready.value.reason != "AdminCallFailed" && ready.value.reason != "AdminCallRejected"
    ensures WaitAt(ready, streak, k) == 30 * SECOND
  {
    UnstoredLeavesNothing(ready, streak, k);
  }

  lemma {:induction false} UnstoredLeavesNothing(ready: Option<Condition>, streak: seq<Failure>, k: nat)
    requires k <= |streak| && forall j :: 0 <= j < k ==> !streak[j].stored
    ensures ConditionBefore(ready, streak, k) == ready
  {
    if k > 0 {
      UnstoredLeavesNothing(ready, streak, k - 1);
    }
  }

  lemma {:induction false} TransitionInThePast(ready: Option<Condition>, streak: seq<Failure>, k: nat)
    requires Streak(streak) && k < |streak|
    requires ready.Some? && ready.value.lastTransition.Some? ==> ready.value.lastTransition.value <= streak[0].now
    ensures
      var c := ConditionBefore(ready, streak, k);
      c.Some? && c.value.lastTransition.Some? ==> c.value.lastTransition.value <= streak[k].now
  {
    if k > 0 {
      TransitionInThePast(ready, streak, k - 1);
      assert streak[k - 1].now <= streak[k].now && streak[0].now <= streak[k].now;
    }
  }

  // --- Jitter ---

  // An interval lengthened by a random factor.
  function Jitter(interval: nat, factor: real): real {
    interval as real * (1.0 + factor)
  }

  // Every wait for a failed admin call is the quarter of the time waited, within bounds, and up to
  // a fifth more; so it lies between 30 seconds and 6 minutes.
  lemma AdminWaitIsBounded(waited: nat, quarter: int, factor: real)
    requires 0.0 <= factor < 0.2 && IsQuarter(quarter, waited)
    ensures
      var wait := Jitter(Backoff(waited), factor);
      && (30 * SECOND) as real <= wait < (360 * SECOND) as real
      && quarter as real <= wait < quarter as real * 1.2
      && (factor > 0.0 ==> quarter as real < wait)
  {
    BackoffIsQuarter(waited);
    QuarterIsBounded(quarter, waited);
    JitterLengthens(quarter, factor);
    FifthMore(quarter);
    hide *;
  }

  lemma QuarterIsBounded(quarter: int, waited: nat)
    requires IsQuarter(quarter, waited)
    ensures 30 * SECOND <= quarter <= 300 * SECOND
  {
  }

  lemma JitterLengthens(interval: nat, factor: real)
    requires 0.0 <= factor < 0.2 && 0 < interval
    ensures interval as real <= Jitter(interval, factor) < interval as real * 1.2
    ensures factor > 0.0 ==> interval as real < Jitter(interval, factor)
  {
    Scaled(interval as real, factor);
  }

  lemma FifthMore(interval: nat)
    requires 30 * SECOND <= interval <= 300 * SECOND
    ensures (30 * SECOND) as real <= interval as real && interval as real * 1.2 <= (360 * SECOND) as real
  {
  }

  lemma Scaled(x: real, factor: real)
    requires 0.0 <= factor < 0.2 && 0.0 < x
    ensures x <= x * (1.0 + factor) < x * 1.2
    ensures factor > 0.0 ==> x < x * (1.0 + factor)
  {
    assert x * (1.0 + factor) == x + x * factor;
    assert 0.0 <= x * factor < x * 0.2;
    assert factor > 0.0 ==> x * factor > 0.0;
  }

  // When to re-check a healthy deployment; `poll` is the jittered routine interval.
  function HealthyRequeueAfter(nextRemoval: Option<Time>, now: Time, poll: real): real {
    match nextRemoval
    case Some(due) =>
      var left := Elapsed(now, due) as real;
      if left <= poll then left else poll
    case None => poll
  }

  // A healthy deployment is re-checked no later than its next removal comes due, or at once
  // when it already has, and within 6 minutes in any case.
  lemma HealthyRequeueWakesInTime(nextRemoval: Option<Time>, now: Time, factor: real)
    requires 0.0 <= factor < 0.2
    ensures
      var wait := HealthyRequeueAfter(nextRemoval, now, Jitter(CEILING, factor));
      && 0.0 <= wait < (360 * SECOND) as real
      && (nextRemoval.Some? ==> now as real + wait <= Max(now, nextRemoval.value) as real)
      && (nextRemoval.None? || nextRemoval.value - now > 360 * SECOND ==> (300 * SECOND) as real <= wait)
      // no sooner than a removal due before the routine check
      && (nextRemoval.Some? && nextRemoval.value - now <= 300 * SECOND ==>
            now as real + wait == Max(now, nextRemoval.value) as real)
  {
    assert Jitter(CEILING, factor) == CEILING as real + CEILING as real * factor;
  }
}
