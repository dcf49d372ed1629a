// The parts of a RestateDeployment's spec that drive cleanup, with their defaults
// (restatedeployments.rs), and the mode a cleanup pass runs in (cleanup.rs).
module Policy {
  import opened Base
  import opened Usage

  datatype DeletePolicy = Drain | Force

  datatype OnTimeout = Hold | GiveUp

  datatype Rsd = Rsd(
    // the versioned name the pod template hash gives the current version
    desired: Name,
    replicas: nat,
    revisionHistoryLimit: int,
    autoscaling: bool,
    drainDelaySeconds: Option<int>,
    deletePolicy: Option<DeletePolicy>,
    drainTimeoutSeconds: Option<int>,
    onTimeout: Option<OnTimeout>,
    deletedAt: Option<Time>)
  {
    // Five minutes unless configured; a negative setting is none.
    function DrainDelay(): (delay: nat)
      ensures drainDelaySeconds == None ==> delay == 300 * SECOND
      ensures drainDelaySeconds.Some? && drainDelaySeconds.value >= 0 ==> delay == drainDelaySeconds.value * SECOND
      ensures drainDelaySeconds.Some? && drainDelaySeconds.value < 0 ==> delay == 0
    {
      Max(0, if drainDelaySeconds.Some? then drainDelaySeconds.value else 300) * SECOND
    }

    // An hour unless configured.
    function DrainTimeout(): (timeout: nat)
      ensures drainTimeoutSeconds == None ==> timeout == 3600 * SECOND
      ensures drainTimeoutSeconds.Some? && drainTimeoutSeconds.value >= 0 ==> timeout == drainTimeoutSeconds.value * SECOND
      ensures drainTimeoutSeconds.Some? && drainTimeoutSeconds.value < 0 ==> timeout == 0
    {
      Max(0, if drainTimeoutSeconds.Some? then drainTimeoutSeconds.value else 3600) * SECOND
    }

    function DeletePolicyOrDefault(): DeletePolicy {
      if deletePolicy.Some? then deletePolicy.value else Drain
    }

    function OnTimeoutOrDefault(): OnTimeout {
      if onTimeout.Some? then onTimeout.value else Hold
    }

    function DrainDeadline(): Option<Time> {
      if deletedAt.Some? then Some(deletedAt.value + DrainTimeout()) else None
    }

    // A drain that gives up at its deadline.
    predicate ForcesOnTimeout() {
      DeletePolicyOrDefault() == Drain && OnTimeoutOrDefault() == GiveUp
    }
  }

  // At instant `at` the configured drain delay, or five minutes, has passed since `since`.
  ghost predicate DelayEnds(rsd: Rsd, since: Time, at: Time) {
    match rsd.drainDelaySeconds
    case Some(seconds) => at == since + Max(0, seconds) * SECOND
    case None => at == since + 300 * SECOND
  }

  // At instant `now` more than that has passed.
  ghost predicate DelayPassed(rsd: Rsd, since: Time, now: Time) {
    match rsd.drainDelaySeconds
    case Some(seconds) => since + Max(0, seconds) * SECOND < now
    case None => since + 300 * SECOND < now
  }

  // The configured drain timeout, or an hour, has passed since the deletion was asked for.
  ghost predicate TimedOut(rsd: Rsd, now: Time) {
    && rsd.deletedAt.Some?
    && match rsd.drainTimeoutSeconds
       case Some(seconds) => rsd.deletedAt.value + Max(0, seconds) * SECOND <= now
       case None => rsd.deletedAt.value + 3600 * SECOND <= now
  }

  function ModeFor(rsd: Rsd, now: Time): CleanupMode {
    if rsd.deletedAt.None? then Rollout
    else
      match rsd.DeletePolicyOrDefault()
      case Force => ForceDeleting
      case Drain =>
        match rsd.OnTimeoutOrDefault()
        case Hold => Deleting
        case GiveUp =>
          if rsd.DrainDeadline().value <= now then ForceDeleting else Deleting
  }
}
