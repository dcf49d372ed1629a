// Deleting a RestateDeployment: how the mode changes over time, and when a waiting deletion
// comes back (controller.rs, cleanup.rs).
module Deletion {
  import opened Base
  import opened Usage
  import opened Policy
  import opened Retry

  // --- The mode over time ---

  // A deletion forces exactly when it is told to, or when a drain told to give up runs out.
  lemma ForcesExactlyWhen(rsd: Rsd, now: Time)
    requires rsd.deletedAt.Some?
    ensures ModeFor(rsd, now) ==
      if rsd.deletePolicy == Some(Force) || (rsd.onTimeout == Some(GiveUp) && TimedOut(rsd, now)) then ForceDeleting
      else Deleting
  {
  }

  // With a fixed spec and a clock that does not run backwards the modes go Deleting* ForceDeleting*.
  lemma {:induction false} ModeSwitchesOnce(rsd: Rsd, passes: seq<Time>) returns (k: nat)
    requires rsd.deletedAt.Some?
    requires forall i, j :: 0 <= i <= j < |passes| ==> passes[i] <= passes[j]
    ensures k <= |passes|
    ensures forall i :: 0 <= i < |passes| ==> ModeFor(rsd, passes[i]) == if i < k then Deleting else ForceDeleting
  {
    k := 0;
    while k < |passes| && ModeFor(rsd, passes[k]).Deleting?
      invariant k <= |passes|
      invariant forall i :: 0 <= i < k ==> ModeFor(rsd, passes[i]).Deleting?
    {
      k := k + 1;
    }
    ForcesExactlyWhen(rsd, if k < |passes| then passes[k] else 0);
    forall i | k <= i < |passes| ensures ModeFor(rsd, passes[i]).ForceDeleting? {
      ForcesExactlyWhen(rsd, passes[i]);
    }
  }

  // --- When a waiting deletion comes back ---

  function BlockedFor(rsd: Rsd, now: Time): nat {
    if rsd.deletedAt.Some? then Elapsed(rsd.deletedAt.value, now) else 0
  }

  predicate DrainOverdue(rsd: Rsd, now: Time) {
    && rsd.DeletePolicyOrDefault() == Drain && rsd.OnTimeoutOrDefault() == Hold
    && rsd.DrainDeadline().Some? && rsd.DrainDeadline().value <= now
  }

  // The time left to the drain's deadline; once that is past there is none, unless the drain
  // then forces.
  function UntilDrainDeadline(rsd: Rsd, now: Time): Option<nat> {
    if rsd.DrainDeadline().None? then None
    else if now <= rsd.DrainDeadline().value then Some(rsd.DrainDeadline().value - now)
    else if rsd.ForcesOnTimeout() then Some(0)
    else None
  }

  function BlockedDeletionRequeue(blockedFor: nat, untilDeadline: Option<nat>): nat {
    match untilDeadline
    case Some(left) => Min(Backoff(blockedFor), Max(left, SECOND))
    case None => Backoff(blockedFor)
  }

  // Whole seconds, truncated toward zero.
  function WholeSeconds(d: int): int {
    if d >= 0 then d / SECOND else -((-d) / SECOND)
  }

  // The clock is read once for the removal and once more for the deadline.
  function DrainingRequeue(rsd: Rsd, nextRemoval: Time, now: Time, later: Time): nat {
    var untilRemoval := Max(WholeSeconds(nextRemoval - now), 1) * SECOND;
    if rsd.ForcesOnTimeout() && UntilDrainDeadline(rsd, later).Some?
    then Min(untilRemoval, Max(UntilDrainDeadline(rsd, later).value, SECOND))
    else untilRemoval
  }

  // A drain is overdue exactly when it was to hold and its timeout has passed.
  lemma OverdueExactlyWhen(rsd: Rsd, now: Time)
    ensures DrainOverdue(rsd, now) <==>
      rsd.deletePolicy != Some(Force) && rsd.onTimeout != Some(GiveUp) && TimedOut(rsd, now)
  {
  }

  // A blocked deletion comes back after the quarter of the time it has waited, within bounds, or
  // at its deadline if that is sooner: a drain that forces within a second of it, or of now when
  // it passed during the pass, and none in under a second. Past its deadline a drain that holds
  // is paced by the quarter alone.
  lemma BlockedDeletionWakesForDeadline(rsd: Rsd, now: Time)
    requires rsd.deletedAt.Some?
    ensures
      var wait := BlockedDeletionRequeue(BlockedFor(rsd, now), UntilDrainDeadline(rsd, now));
      var waited := Max(0, now - rsd.deletedAt.value);
      var deadline := rsd.DrainDeadline().value;
      && SECOND <= wait <= 300 * SECOND
      && (forall quarter :: IsQuarter(quarter, waited) ==>
            wait ==
              if now <= deadline then Min(quarter, Max(deadline - now, SECOND))
              else if rsd.deletePolicy != Some(Force) && rsd.onTimeout == Some(GiveUp) then SECOND
              else quarter)
  {
    BackoffIsQuarter(BlockedFor(rsd, now));
  }

  lemma DrainingWakesForDeadline(rsd: Rsd, nextRemoval: Time, now: Time, later: Time)
    requires rsd.deletedAt.Some? && now <= later
    ensures
      var wait := DrainingRequeue(rsd, nextRemoval, now, later);
      && SECOND <= wait
      && (rsd.ForcesOnTimeout() ==> later + wait <= Max(rsd.DrainDeadline().value, later) + SECOND)
      // no later than the removal, or in a second if that is past
      && now + wait <= Max(nextRemoval, now + SECOND)
      // and less than a second before it, unless a deadline that forces comes sooner
      && (!rsd.ForcesOnTimeout() ==> Max(nextRemoval, now) - SECOND < now + wait)
      && (rsd.ForcesOnTimeout() ==>
            now + wait > Max(nextRemoval, now) - SECOND || later + wait >= Max(rsd.DrainDeadline().value, later))
  {
  }
}
