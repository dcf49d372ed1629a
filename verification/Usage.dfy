// What Restate believes about one registered deployment, and when cleanup treats that as a
// reason to keep the version (cleanup.rs).
module Usage {
  import opened Base

  datatype CleanupMode = Rollout | Deleting | ForceDeleting {
    predicate IsDeleting() {
      !Rollout?
    }

    predicate SkipsDrainDelay() {
      ForceDeleting?
    }

    // Only a drain blocks on invocations that are not yet pinned.
    predicate NeedsUnpinnedCount() {
      Deleting?
    }
  }

  datatype DeploymentUsage = DeploymentUsage(latestForService: bool, pinned: nat, unpinned: nat) {
    function InFlight(): nat {
      pinned + unpinned
    }

    predicate IsActive(mode: CleanupMode) {
      match mode
      case ForceDeleting => false
      case Deleting => InFlight() > 0
      case Rollout => latestForService || InFlight() > 0
    }

    // Two answers about one deployment: the larger counts, and latest if either says so.
    function Merge(other: DeploymentUsage): DeploymentUsage {
      DeploymentUsage(
        latestForService || other.latestForService,
        Max(pinned, other.pinned),
        Max(unpinned, other.unpinned))
    }
  }

  type UsageMap = map<DeploymentId, DeploymentUsage>
}
