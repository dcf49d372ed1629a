# The Restate operator's version lifecycle and storage recreation

A Dafny model of the protocols at the heart of the Restate Kubernetes operator, with proofs of
what they guarantee over every run. `dafny verify dfyconfig.toml` checks all of it.

**Version lifecycle.** The operator owns one versioned object (a ReplicaSet or a Knative
Configuration) per version of a RestateDeployment. A reconcile pass adopts the current version,
takes a usage snapshot from Restate, plans a registration, writes it, records the deployment id,
confirms the routing and then cleans up superseded versions: each is still in use, waits out a
drain delay, is newly stamped with a deadline, is kept for rollback, or is torn down. A deletion
pass derives a mode from the policy and the clock and releases the finalizer once nothing is left.
Invocations start, pin to their service's route and complete between any two of these writes,
other controllers register their own endpoints, the spec is edited, calls fail and the operator
restarts.

**Storage recreation.** Changing a StatefulSet's storage deletes it while leaving its pods, waits,
and recreates it with the update strategy it had, through lagging caches and restarts.

**Around them.** The usage query as relational algebra, server-side apply and who owns a drain
deadline, the hash input and its digit encoding, quantity parsing, and retry pacing.

## How it is laid out

| file | contents |
|---|---|
| `Base.dfy`, `Usage.dfy`, `Policy.dfy`, `Restate.dfy` | vocabulary, activity of a deployment, spec defaults and cleanup mode, the Restate server |
| `Cleanup.dfy` | what one cleanup pass writes, as a function of what it reads |
| `Outcome.dfy`, `Replay.dfy` | which versions are kept; a pass that stops anywhere and is repeated |
| `Registration.dfy`, `Convergence.dfy`, `ConvergenceRuns.dfy` | planning a registration; it converges, in rounds and in runs; the fast path refines the slow one |
| `Lifecycle.dfy` | the step machine: one label is one API call, one step of the world, or a crash |
| `LifecycleInvariant.dfy`, `LifecycleCleaning.dfy`, `LifecycleSafety.dfy` | what every step keeps; safety over all runs |
| `LifecycleLost.dfy`, `LifecyclePass.dfy`, `LifecycleCut.dfy` | exactly which versions safety does not reach; what a pass touches before its cleanup; a cut no later pass repairs |
| `Promotion.dfy`, `PromotionWar.dfy`, `LifecycleDeletion.dfy`, `LifecycleDrain.dfy`, `Deletion.dfy` | no promotion war; forced and drained deletions get there, and when they come back |
| `CleanupReport.dfy`, `Operator.dfy` | the imperative reconciler: every method extends one run of the step machine |
| `UsageQuery.dfy` | the usage query and the map built from it |
| `ServerSideApply.dfy` | field ownership, and the drain deadline's owner |
| `StorageChange.dfy`, `StorageStrategy.dfy`, `StorageRounds.dfy`, `StatefulSetReconciler.dfy` | the recreation protocol; exactly when it keeps the strategy; it settles; the imperative reconciler that follows it |
| `Quantity.dfy`, `Identity.dfy`, `Retry.dfy` | parsing quantities, naming versions, pacing retries |

The source's imperative code is modelled twice where it matters: as a class whose methods issue one
API call at a time, with the rest of the world moving between calls and any call failing, and as a
pure step machine. `Operator.Reconciler` and `StatefulSetReconciler.Reconciler` carry a ghost run,
and `Valid()` says that the object is in exactly the state that run leads to. So the theorems about
runs hold at every point these methods reach.

## Assumptions

- The operator's reflector caches show its own writes at the start of a pass of the version
  lifecycle; the storage protocol makes no such assumption, its caches may lag arbitrarily.
- Restate issues one deployment id per endpoint and never reuses an id. Registering an unknown
  address mints an id and takes its services; a known address keeps its id, and only `force` moves
  the services. An invocation pins to its service's current route.
- Nobody but the operator registers the operator's endpoints or edits its annotations, except where
  `DeadlineOwnership` lets anyone write anything.
- Kubernetes server-side apply works as its documentation says: a forced apply takes a field over, a
  field its last owner stops applying is removed.
- The usage query answers from one state of Restate: a pass works from an atomic snapshot, however
  stale it has become.
- Nobody but the operator creates or deletes its versioned objects, and only an autoscaler resizes
  them. An autoscaler keeps at least one replica.
- Clocks do not run backwards. I/O failures appear as nondeterministic failures of each call.

## What the proofs found

- **A lost registration is torn down.** A pass that registers an endpoint and stops before recording
  the id leaves a version without an id; if the spec then changes, the next pass takes that version
  for unregistered and scales it to zero while Restate routes to it
  (`LifecycleSafety.LostRegistrationIsTornDown`). Those are exactly the needed versions a rollout
  tears down (`LifecycleLost.TearsDownNeededExactlyWhenLost`).
- **A cut autoscaler removal is not repaired.** Repeating an interrupted cleanup pass reaches the
  same end, except when it stopped between deleting a still-active version's autoscaler and restoring
  the replicas the autoscaler had changed; the repeat no longer sees the autoscaler and skips the
  restore (`Replay.ReplayReachesSameEnd` gives the exact condition). A run from the beginning gets
  there (`LifecycleCut.CutIsReached`), and no later pass makes up for it
  (`LifecycleCut.CutIsNeverRepaired`).
- **The update strategy is lost in exactly two ways** (`StorageStrategy.StrategyHeldExactly`). One is
  the plain apply, which omits the strategy, on a StatefulSet whose strategy the operator alone owns,
  as after a recreate that stopped between its two applies (`StorageChange.CutRecreateLosesStrategy`),
  or on one that is gone but still cached, as after the storage was edited back
  (`StorageChange.RevertedChangeLosesStrategy`). The other is forgetting the remembered strategy while
  the StatefulSet is still going, as after it was edited back a little earlier
  (`StorageChange.RevertedDeletionForgets`). The default strategy is never lost.
- **A forced registration settles a rollback only if it takes everything.** If another version, its
  registration on record, keeps a service the desired one does not expose, it still counts as
  superseding: once a foreign controller takes the desired version's services, the operator forces
  again (`PromotionWar.ForcesAgainExactlyWhen`). A version whose registration was lost supersedes
  nobody.
- **The earlier hash inputs are not separated.** The template, cluster, service path and HTTP/1.1 flag
  carry no length prefix, so a service path that ends in the flag's text, or a cluster name that runs
  into the path, feeds the hasher the bytes of other inputs (`Identity.PathAndFlagCollide`,
  `Identity.ClusterAndPathCollide`: exactly when). The tunnel parameters are prefixed, and injective.
- **Where code and documentation differ.** The `revisionHistoryLimit` field is documented as used in
  ReplicaSet mode only; the Configuration cleanup loop applies it as well, and the model follows the
  code. A version that is superseded while nobody holds its services is reported as a foreign
  conflict, and two passes converge exactly when `Convergence.Winnable` holds.

## Model

| member | source | states |
|---|---|---|
| LifecycleSafety.RolloutTearsDownOnlyUnneeded | src/controllers/restatedeployment/reconcilers/replicaset.rs:344-577 | Rollout safety at every write of every run: when a rollout is about to scale a version to zero, deregister it or delete it, that version is not the current one, and a service routes to it or unfinished work is pinned to it at that moment, however stale the usage snapshot, only if its registration was lost between registering and recording. |
| LifecycleLost.TearsDownNeededExactlyWhenLost | src/controllers/restatedeployment/reconcilers/replicaset.rs:443-577 | Rollout safety, exactly: in every run, of the versions Restate needs when a rollout plans its cleanup, those it takes for due, to scale down and to keep or delete, are the ones whose registration was lost, and it keeps every other one active. |
| LifecycleLost.RegisteredExactlyUnlessLost | src/controllers/restatedeployment/reconcilers/replicaset.rs:509-545 | Crash-safe teardown, exactly: after any prefix of any run, the id of a deployment Restate holds for one of our endpoints is on that version's object if and only if its registration was not lost and would not be by stopping now. |
| Restate.QuietIsStable | src/controllers/restatedeployment/cleanup.rs:102-109 | Being latest for nothing with nothing pinned survives every step of the rest of the world: work reaches a deployment only through a route. |
| Restate.RegisterLeavesOthersQuiet | src/controllers/restatedeployment/registration.rs:25-45 | Registering one of our endpoints, forced or not, makes no other quiet one of ours needed. |
| Restate.ActiveMeansNeeded | src/controllers/restatedeployment/cleanup.rs:102-109 | Whichever flavour of the usage query ran, a rollout takes a deployment for active exactly when a service routes to it or unfinished work is pinned to it. |
| LifecycleSafety.RunKeepsInvariant | src/controllers/restatedeployment/controller.rs:336-746 | Every run, with edits of the spec at any time, of a terminating object too, keeps: recorded ids belong to their version's endpoint, registered endpoints are recorded, snapshots err only on the safe side, deadlines were stamped by the operator and not since disturbed, queued writes match their verdicts. |
| LifecycleSafety.DrainWindow | src/controllers/restatedeployment/cleanup.rs:351-404 | Drain window over whole runs: outside a forced deletion a registered version is torn down only if its registration was lost, or when more than `drainDelaySeconds`, of the spec at that time, or 300 seconds where it sets none, have passed since some step of the run stamped it; and since that step none cleared the deadline, completed adopting the version or completed a cleanup that found it in use. |
| LifecycleLost.SkipsDrainExactlyWhenLost | src/controllers/restatedeployment/reconcilers/replicaset.rs:443-459 | The drain window, exactly: in every run and outside a forced deletion, of the registered candidates without a passed deadline, those a pass takes for due are the ones whose registration was lost. |
| LifecycleSafety.ScalesToZeroOnlyWithoutAutoscaler | src/controllers/restatedeployment/reconcilers/replicaset.rs:463-500 | In every run, a version about to be scaled to zero has no operator autoscaler. |
| LifecycleSafety.RemovedForGood | src/controllers/restatedeployment/registration.rs:279-286 | A deployment id that left Restate never comes back, whatever the run goes on to do. |
| LifecycleSafety.FinalizerReleaseIsComplete | src/controllers/restatedeployment/controller.rs:1544-1639 | A run that releases the finalizer, cluster not gone, has deleted every version and left no endpoint of ours registered, but for lost registrations. |
| LifecycleLost.DeregistersExactlyUnlessLost | src/controllers/restatedeployment/reconcilers/replicaset.rs:509-545 | What is left registered, exactly: in every run, of the registered versions a deletion is going to delete, it deregisters those whose registration was not lost. |
| LifecyclePass.ConflictTouchesOnlyCurrent | src/controllers/restatedeployment/controller.rs:336-588 | A conflict over the whole pass from its beginning: no version but the current one was created or changed, only others moved Restate, and no cleanup write was issued. |
| LifecyclePass.PassWithoutCleanup | src/controllers/restatedeployment/controller.rs:336-728 | The same for every pass that ends before its cleanup, up to the registration of the current version, which is all such a pass does to Restate. |
| LifecyclePass.UnreadyPass | src/controllers/restatedeployment/controller.rs:608-628 | In every run, a pass that found the pods not ready and Restate not routing to the recorded id registers nothing, then or later: it moves Restate by what its cleanup deregisters alone. |
| LifecycleSafety.LostRegistrationIsTornDown | src/controllers/restatedeployment/controller.rs:637-683 | A concrete run from a fresh RestateDeployment in which a rollout is about to scale down a version Restate routes to, because a pass stopped between registering and recording. |
| LifecycleInvariant.EnvironmentKeepsInvariant | src/controllers/restatedeployment/registration.rs:279-286 | Invocations moving and others registering between any two writes break none of it. |
| LifecycleCleaning.PlanningKeepsInvariant | src/controllers/restatedeployment/reconcilers/replicaset.rs:289-342 | A plan made from a stale snapshot classifies every candidate safely, clears active deadlines, deregisters before deleting and removes autoscalers before scaling. |
| LifecycleCleaning.CleaningKeepsInvariant | src/controllers/restatedeployment/reconcilers/replicaset.rs:344-577 | Each single cleanup write keeps the whole invariant, so the pass may stop after any of them. |
| LifecycleInvariant.AdoptedKeepsInvariant | src/controllers/restatedeployment/controller.rs:421-499 | Adoption ends with the current version present and carrying no leftover deadline. |
| LifecycleInvariant.RegisteringKeepsInvariant | src/controllers/restatedeployment/controller.rs:633-645 | Registering the current version, forced or not, makes no other version needed that the snapshot showed quiet. |
| Promotion.NoPromotionWar | src/controllers/restatedeployment/registration.rs:60-66 | From any reachable state on, while the desired version stays the same and serves what the other owned ones serve, at most one forced registration of it completes, whatever foreign controllers register and however often the operator reconciles. |
| PromotionWar.ForcesAgainExactlyWhen | src/controllers/restatedeployment/registration.rs:60-66 | In every run: a forced registration can be followed by another of the same version, the desired version staying the same, if and only if the RestateDeployment is not being deleted and a rival, another version with its registration on record, held a service the desired one does not expose. |
| Promotion.ForcesOnce | src/controllers/restatedeployment/registration.rs:60-66 | Otherwise no further forced registration of that version completes, whatever the environment registers and however often the operator reconciles. |
| Promotion.ForceSettles | src/controllers/restatedeployment/registration.rs:31-45 | A completed forced registration leaves no rival serving anything if and only if none of them held a service the desired version does not expose. |
| Promotion.PromotesExactlyWhen | src/controllers/restatedeployment/registration.rs:92-130 | In every run a plan promotes if and only if the recorded id is registered and serves nothing, and a rival serves something; a version whose registration was lost is no rival. |
| ConvergenceRuns.TwoPassesConverge | src/controllers/restatedeployment/controller.rs:336-746 | From every reachable state in which our endpoints expose the same services, two passes left alone with pods ready, cleanup included, route them to the current version if and only if its endpoint is new, or it or a recorded sibling holds them; otherwise Restate is as it was and the id is on record. No invocation is touched. |
| ConvergenceRuns.PassLeaves | src/controllers/restatedeployment/controller.rs:336-746 | One such pass gets them exactly when the endpoint is new, holds them already, or is on record with a recorded sibling holding them. |
| Convergence.RegistrationConverges | src/controllers/restatedeployment/registration.rs:92-130 | The same for two registration rounds on a server, whatever ids are on record; the id of an existing deployment stays. |
| Convergence.OnceRoutedUntouched | src/controllers/restatedeployment/registration.rs:107-112 | Once routed, every later pass plans to leave Restate alone. |
| Convergence.UnrecordedNeverConverges | src/controllers/restatedeployment/controller.rs:646-652 | Without recording the id a known but superseded endpoint plans the same registration for ever, changing nothing. |
| Convergence.PassPerformsRound | src/controllers/restatedeployment/controller.rs:566-728 | The lifecycle's planning, registering, recording and confirming steps compose to that registration round. |
| Convergence.FastPathRefinesSlowPath | src/controllers/restatedeployment/controller.rs:548-562 | Returning early leaves exactly the world that the usage query, the planner and the cleanup loop would have left, and the loop would have returned no removal, nothing blocking and nothing abandoned. |
| Registration.LeastHolder | src/controllers/restatedeployment/registration.rs:114-124 | Over ids in order, the search finds the least id other than the recorded one that serves new invocations, exactly when there is one. |
| Registration.AtMostIsLexicographic | src/controllers/restatedeployment/registration.rs:132-163 | That order is the one of strings: a prefix first, and otherwise by the first character that differs. |
| Replay.ReplayReachesSameEnd | src/controllers/restatedeployment/reconcilers/replicaset.rs:361-545 | For both loops: a pass stopped after any write and repeated at the same instant ends where the uninterrupted pass ends, if and only if it did not stop between deleting a still-active version's autoscaler and restoring its replicas, which differ from the spec's. |
| LifecycleCut.CutIsReached | src/controllers/restatedeployment/reconcilers/replicaset.rs:361-430 | A run from a fresh RestateDeployment that stops at such a cut: a version in use is left at the size its autoscaler gave it, without an autoscaler. |
| LifecycleCut.CutIsNeverRepaired | src/controllers/restatedeployment/reconcilers/replicaset.rs:354-430 | From every such state on, while autoscaling stays off and another version is desired, no run restores the replicas: the version keeps them until it is scaled to zero. |
| Replay.DueTurnResumes | src/controllers/restatedeployment/reconcilers/knative.rs:964-1000 | A teardown resumes exactly where it stopped, whatever was already done. |
| Replay.FinishedTurnStaysFinished | src/controllers/restatedeployment/reconcilers/replicaset.rs:344-577 | Stopping in a later version's turn leaves nothing to redo for an earlier one. |
| Outcome.KeptCount | src/controllers/restatedeployment/cleanup.rs:297-304 | Exactly min(limit, due) versions are kept in a rollout and none in a deletion. |
| Outcome.KeptAreNewest | src/controllers/restatedeployment/reconcilers/replicaset.rs:328-333 | No version that is torn down is newer than one that is kept. |
| Outcome.RepeatWritesNothing | src/controllers/restatedeployment/reconcilers/replicaset.rs:344-594 | Repeating a finished pass at the same instant only applies autoscalers that are already there. |
| CleanupReport.AutoscalersAgree | src/controllers/restatedeployment/reconcilers/autoscaling.rs:33-41 | After a rollout pass whose applies succeeded, an active old version has an autoscaler exactly when autoscaling is configured, one waiting out its drain keeps what it had, and retained, torn-down and current versions have none. |
| CleanupReport.AbandonsOnlyWhenForced | src/controllers/restatedeployment/cleanup.rs:245-248 | Work is abandoned only by a forced deletion. |
| CleanupReport.ReleaseMeansSettled | src/controllers/restatedeployment/controller.rs:1544-1639 | A deletion pass has nothing blocking and no removal to wait for exactly when every candidate was due. |
| Operator.Reconciler.CleanupOldVersions | src/controllers/restatedeployment/reconcilers/replicaset.rs:279-594 | The cleanup loop issues the planned writes in order and nothing else, and on success each version was blocked, waiting, stamped, kept or torn down as judged, Restate holds none of those torn down, the abandoned and blocking lists are exactly those versions in order, and the next removal is the soonest outstanding deadline, or ten seconds out when only blockers remain, or none. A failed call stops it with a run that ends in a crash. |
| Operator.Reconciler.KeepActive | src/controllers/restatedeployment/reconcilers/replicaset.rs:354-441 | An active version's autoscaler follows the spec, an apply failure does not stop the pass, and its deadline is cleared. |
| Operator.Reconciler.ScaleDown | src/controllers/restatedeployment/reconcilers/replicaset.rs:460-500 | A due version loses its autoscaler and then its replicas. |
| Operator.Reconciler.TearDown | src/controllers/restatedeployment/reconcilers/replicaset.rs:509-545 | It is deregistered, if registered, and then deleted, in that order; when it is done the version is gone and so is its deployment. |
| Operator.Reconciler.Retire | src/controllers/restatedeployment/reconcilers/replicaset.rs:460-546 | It is kept, scaled to zero, exactly while the revision history has room. |
| Operator.Reconciler.ScheduleRemoval | src/controllers/restatedeployment/cleanup.rs:351-379 | The deadline lies `drainDelaySeconds` after the write, 300 seconds where the spec sets none, and not after it for a negative setting. |
| Operator.Reconciler.Adopt | src/controllers/restatedeployment/controller.rs:415-499 | Creates or re-adopts the current version with the spec's replicas, no deadline and no autoscaler, and touches no other version. |
| Operator.Reconciler.Check | src/controllers/restatedeployment/controller.rs:548-562 | Ends the pass early exactly when nothing else is owned and Restate routes to the recorded id. |
| Operator.Reconciler.Query | src/controllers/restatedeployment/controller.rs:564-631 | Plans from a fresh snapshot and the recorded ids, and moves the pass to registering, cleaning up, or stopping on a conflict; it goes on to clean up without registering only when Restate routed to the recorded id, or when it did not and the pods were not ready. |
| Operator.Reconciler.RegisterEndpoint | src/controllers/restatedeployment/registration.rs:227-277 | Registers the endpoint and learns the id Restate holds for it; forced, every discovered service then routes to it. |
| Operator.Reconciler.Record | src/controllers/restatedeployment/controller.rs:646-683 | Puts the id on the current version before the routing is confirmed. |
| Operator.Reconciler.Confirm | src/controllers/restatedeployment/registration.rs:287-328 | Goes on to cleanup, with the current version shown latest, only when every discovered service routes to it. |
| Operator.Reconciler.Reconcile | src/controllers/restatedeployment/controller.rs:336-746 | A whole rollout pass as one run of the lifecycle with one beginning; it fails exactly when the run ends in a crash. It succeeds only after a step at which Restate routed to the recorded id, or every discovered service to the confirmed one. It answers that the pods are not ready if and only if, at some step, they were not, Restate did not route to the recorded id and it went on to clean up, and then no step of it registered anything. One that ends early has touched no version but the current one and done no more to Restate than register it, and on a foreign deployment not even that; one that cleans up, ready or not, has adopted the current version and left every other as judged, autoscalers included when all applies succeeded, and returns what the loop reported. |
| Operator.Reconciler.Prepare | src/controllers/restatedeployment/controller.rs:378-728 | Everything before the cleanup: the current version ends adopted with the spec's replicas, no deadline and no autoscaler, every other version as it was found, and the pass either over, at the step that its answer names, or planning, its last step having found Restate routing to the current version or the pods not ready. |
| Operator.Reconciler.Finalize | src/controllers/restatedeployment/controller.rs:1395-1639 | A whole deletion pass, which fails exactly when its run ends in a crash: it releases with nothing left, or reports exactly the blocking versions and the paced requeue, or the soonest removal and when to come back, and in each case every version it found is as judged; a gone cluster releases at once. |
| Operator.Reconciler.Derive | src/controllers/restatedeployment/controller.rs:1433-1454 | The snapshot is what Restate answered, at one step of the pass, in the mode of that instant; the pass goes on in the mode of its end, and if that still waits for work the answer counted unpinned work. |
| Operator.Reconciler.NewestFirst | src/controllers/restatedeployment/reconcilers/replicaset.rs:289-333 | Lists every owned version but the excepted one once, newest first. |
| Operator.Reconciler.OwnedIds | src/controllers/restatedeployment/registration.rs:132-163 | Lists exactly the ids recorded on owned versions, in order. |
| Deletion.ForcesExactlyWhen | src/controllers/restatedeployment/cleanup.rs:31-46 | Over the fields: a deletion forces if and only if `deletePolicy` is force, or `onTimeout` is force and `drainTimeoutSeconds`, or 3600 seconds where it is not set, have passed since the deletion was asked for; the defaults never do. |
| LifecycleDeletion.DeletionForcesOnTime | src/controllers/restatedeployment/controller.rs:1433-1454 | In every run a deletion cleans up in exactly that mode for its own spec and the instant it was derived at, so a drain is forced no earlier than `drainTimeoutSeconds`, or an hour, after the deletion was asked for. |
| Deletion.OverdueExactlyWhen | src/controllers/restatedeployment/controller.rs:1226-1232 | A drain counts as overdue if and only if it was to hold and the same time has passed. |
| Deletion.ModeSwitchesOnce | src/controllers/restatedeployment/cleanup.rs:31-46 | With a fixed spec the modes of successive passes go Deleting* then ForceDeleting*. |
| Deletion.BlockedDeletionWakesForDeadline | src/controllers/restatedeployment/cleanup.rs:225-236 | The exact requeue of a blocked deletion: 30 seconds in the first two minutes, a quarter of the time waited up to twenty, then five minutes; or at the deadline when that is sooner, though not in under a second; within a second once past a deadline that forces, while an overdue hold is paced by the quarter alone. |
| Deletion.DrainingWakesForDeadline | src/controllers/restatedeployment/controller.rs:1598-1635 | A draining requeue is never under a second, comes back no later than the removal or a second from now, never sleeps through a deadline that forces, and is not over more than a second before the removal unless such a deadline comes sooner. |
| LifecycleDrain.QuietDrainEnds | src/controllers/restatedeployment/reconcilers/replicaset.rs:443-577 | Over every run of complete deletion passes that find nothing in flight, with stamps at the instant they are written and any edits, registrations and invocations around them: after the first pass, at most one more than the seconds to the last deadline follow, and if that many do the last one releases the finalizer. |
| LifecycleDrain.QuietPassLeaves | src/controllers/restatedeployment/reconcilers/replicaset.rs:443-577 | Such a pass leaves every version stamped, at most a drain delay after its own end; it releases the finalizer exactly when it leaves no version, and it does once every deadline it found is past. |
| LifecycleDeletion.ForcedDeletionReleases | src/controllers/restatedeployment/controller.rs:1395-1639 | A forced deletion without a crash releases the finalizer in the pass it starts, within four writes a version and four steps, whatever is interleaved. |
| LifecycleDeletion.DrainCountsUnpinnedWork | src/controllers/restatedeployment/controller.rs:1433-1454 | In every run, a cleanup that still waits for work was planned on a snapshot that counted unpinned work, even when a deadline passed during the query. |
| UsageQuery.OneRowPerDeployment | src/controllers/restatedeployment/cleanup.rs:130-174 | Both flavours return one row per registered deployment, in order, with exactly the counts their filters select; joins add and drop nothing. |
| UsageQuery.RolloutNeedsNoUnpinnedCount | src/controllers/restatedeployment/cleanup.rs:112-129 | A rollout judges every deployment the same on the cheap query as on the full one. |
| UsageQuery.DrainNeedsUnpinnedCount | src/controllers/restatedeployment/cleanup.rs:57-62 | A drain does not: a database on which only the full query shows the work that holds it. |
| UsageQuery.EachInvocationCountedOnce | src/controllers/restatedeployment/cleanup.rs:144-174 | With unique ids and service names the counts add up to the unfinished invocations attributable to a registered deployment, each once. |
| UsageQuery.GroupCountCounts | src/controllers/restatedeployment/cleanup.rs:159-164 | Grouping gives one group per key with that key's number of occurrences, NULL included. |
| UsageQuery.LeftJoinKeepsRows | src/controllers/restatedeployment/cleanup.rs:165-172 | Joining onto a grouped table keeps the left rows one for one. |
| UsageQuery.IntoMap | src/controllers/restatedeployment/cleanup.rs:191-214 | The loop over the rows builds the merged map, clamping negative counts. |
| UsageQuery.MapIsMostConservative | src/controllers/restatedeployment/cleanup.rs:203-210 | Duplicate rows merge so that a deployment is active in the map exactly when one of its rows says so, in every mode. |
| UsageQuery.MapCountsAreLargest | src/controllers/restatedeployment/cleanup.rs:191-214 | What the map holds of a deployment is the largest of its rows' pinned counts, the largest of their unpinned counts, negative ones taken for none, and latest if any row says so. |
| UsageQuery.QueryAnswersUsage | src/controllers/restatedeployment/cleanup.rs:112-214 | The query over a server's tables, turned into a map, is the usage the lifecycle works from. |
| DeadlineOwnership.HistoryKeepsOwnership | src/controllers/restatedeployment/cleanup.rs:306-349 | Over every sequence of the operator's and anyone else's writes, no manager of the operator but the stamping one owns the deadline. |
| DeadlineOwnership.ClearAndStamp | src/controllers/restatedeployment/cleanup.rs:312-349 | In every reachable state a clear removes the deadline exactly when no outsider owns it and otherwise leaves their value, a stamp lands, and neither moves another field. |
| DeadlineOwnership.DeadlineIsIntended | src/controllers/restatedeployment/controller.rs:378-472 | While only the operator writes, the deadline is its last stamp unless cleared since, whatever annotations the RestateDeployment carries. |
| DeadlineOwnership.CopiedDeadlineSurvivesClear | src/controllers/restatedeployment/reconcilers/knative.rs:356-362 | A copied deadline would survive the clear, which is why it is not propagated. |
| DeadlineOwnership.PropagatedExactly | src/controllers/restatedeployment/controller.rs:374-386 | Exactly which annotations of a RestateDeployment are copied onto its versions, key by key, by creating a ReplicaSet, adopting one and applying a Configuration, and under which manager. |
| ServerSideApply.MergeKeepsOwners | src/controllers/restatedeployment/cleanup.rs:332-349 | A field left in place always has an owner. |
| ServerSideApply.RefusedExactlyWhen | src/controllers/restatecluster/reconcilers/compute.rs:1703-1734 | An apply is refused if and only if it is not forced and would change a value somebody else owns. |
| ServerSideApply.ApplyOwns | src/controllers/restatedeployment/cleanup.rs:306-349 | After an apply its manager owns exactly the fields it names, everybody else keeps the fields whose values it left alone, and a field lasts as long as it has an owner. |
| StorageStrategy.StrategyHeldExactly | src/controllers/restatecluster/reconcilers/compute.rs:952-1012 | Over every run, with the spec edited and the operator stopped anywhere and caches however stale: the update strategy is held all along if and only if no step is the plain apply on a StatefulSet that is gone or whose strategy only the operator owns, or forgets the strategy of one that is going or gone. |
| StorageStrategy.ApplyKeepsExactlyWhen | src/controllers/restatecluster/reconcilers/compute.rs:968-1012 | The apply of one pass keeps a remembered strategy if and only if the cache does not show the StatefulSet, or the strategy is the default, or someone else owns it as well. |
| StorageStrategy.PodsSurvive | src/controllers/restatecluster/reconcilers/compute.rs:1645-1683 | No pod is lost in any run. |
| StorageStrategy.DefaultIsNeverLost | src/controllers/restatecluster/reconcilers/compute.rs:952-1012 | The default strategy is held through every run. |
| StorageStrategy.AskedHolds | src/controllers/restatecluster/reconcilers/compute.rs:1534-1683 | A storage change that has just been asked for starts with its strategy held, so the exact condition covers every run of it. |
| StorageChange.StorageChangeKeepsStrategy | src/controllers/restatecluster/reconcilers/compute.rs:1534-1745 | What a change passes through while its spec stays and no recreate is cut between its applies: the old StatefulSet, then none with the strategy remembered, then a new one with the desired storage and the old strategy, which later applies keep. |
| StorageChange.ComparisonReadsStorage | src/controllers/restatecluster/reconcilers/compute.rs:1618-1638 | Against the text the API server stores, the comparison finds the storage unchanged exactly when it is the desired one, size and attributes class. |
| StorageChange.DeletesOnce | src/controllers/restatecluster/reconcilers/compute.rs:1663-1683 | One storage change deletes one StatefulSet, however the caches lag. |
| StorageChange.DeleteKeeps | src/controllers/restatecluster/reconcilers/compute.rs:1663-1680 | The uid precondition: a delete decided on a stale entry changes nothing once the new StatefulSet is there. |
| StorageRounds.RoundAdvances | src/controllers/restatecluster/reconcilers/compute.rs:952-1012 | Every complete pass on caught-up caches, with anything around its steps, brings a change exactly one stage further, from deleting through recreating to settled, and leaves a settled one settled. |
| StorageRounds.ChangeSettles | src/controllers/restatecluster/reconcilers/compute.rs:952-1012 | From wherever a change stands, whatever was interrupted before, finishing the pass and two more settle it: the new StatefulSet has the desired storage and the old strategy, and nothing is remembered. |
| StorageChange.PinKeeps | src/controllers/restatecluster/reconcilers/compute.rs:1703-1734 | The second apply never conflicts and makes the strategy outlive the operator's own applies. |
| StorageChange.CutRecreateLosesStrategy | src/controllers/restatecluster/reconcilers/compute.rs:1720-1732 | From every storage change, stopping between the two applies of the recreate leads to the default strategy. |
| StorageChange.RevertedChangeLosesStrategy | src/controllers/restatecluster/reconcilers/compute.rs:965-1012 | From every storage change, editing the storage back while the deleted StatefulSet is still cached leads to the default strategy, without any crash. |
| StorageChange.RevertedDeletionForgets | src/controllers/restatecluster/reconcilers/compute.rs:983-1012 | From every storage change, editing it back while the StatefulSet is going makes the pass forget the strategy of one that then goes, without any crash. |
| StatefulSetReconciler.Reconciler.ChangeStorage | src/controllers/restatecluster/reconcilers/compute.rs:1603-1683 | Compares, remembers and deletes one call at a time, as a run of the protocol; it says to wait only after comparing a cached StatefulSet that is going, or one with other storage that its last step deleted. |
| StatefulSetReconciler.Reconciler.Delete | src/controllers/restatecluster/reconcilers/compute.rs:1663-1680 | The delete succeeds if and only if the live StatefulSet is the one compared. |
| StatefulSetReconciler.Reconciler.Recreate | src/controllers/restatecluster/reconcilers/compute.rs:1703-1734 | On success the live StatefulSet has the remembered strategy and the desired storage. |
| StatefulSetReconciler.Reconciler.ApplyStatefulSet | src/controllers/restatecluster/reconcilers/compute.rs:1736-1745 | On success the live StatefulSet has the desired storage. |
| StatefulSetReconciler.Reconciler.Reconcile | src/controllers/restatecluster/reconcilers/compute.rs:952-1012 | A whole pass as one run of the protocol. It fails only by a crash or a call the API server refused. Otherwise it waits if and only if it never got as far as an apply and the cached StatefulSet it compared was going, or had other storage and was deleted by its last step. When it reports the StatefulSet applied, a step of it was an accepted apply of the desired storage, and what is there has that storage. |
| Quantity.RoundTrip | src/controllers/restatecluster/reconcilers/quantity_parser.rs:78-166 | For every request up to the largest signed 64-bit integer, the canonical decimal form the API server stores reads back as that number with no overflow on the way. |
| Quantity.WithUnit | src/controllers/restatecluster/reconcilers/quantity_parser.rs:94-160 | Digits with or without a sign and any multiplying unit parse to the exact product with its base and power when it fits, and an intermediate overflow happens only when it does not. |
| Quantity.AmountReads | src/controllers/restatecluster/reconcilers/quantity_parser.rs:78-166 | How every amount reads, with or without a sign and with any one or two letters for a unit: the product with what the binary or decimal unit stands for, thousandths cut off toward zero, and which of the three errors otherwise. |
| Quantity.OthersDoNotRead | src/controllers/restatecluster/reconcilers/quantity_parser.rs:78-91 | Text that does not end in a letter reads as a number only if it is digits after at most one sign. |
| Quantity.UnitGoesEverywhere | src/controllers/restatecluster/reconcilers/quantity_parser.rs:94-160 | The unit is removed wherever it stands in the text: an amount written with it twice reads as the digits run together. |
| Quantity.WithoutUnit | src/controllers/restatecluster/reconcilers/quantity_parser.rs:96-97 | Removing every occurrence of the unit removes just the unit after an amount without letters. |
| Identity.TunnelInputsAreInjective | src/controllers/restatedeployment/reconcilers/replicaset.rs:225-256 | With the earlier inputs fixed, two in-process versions feed the hasher the same bytes exactly when they agree on every tunnel parameter and the collision count. |
| Identity.TunnelReads | src/controllers/restatedeployment/reconcilers/replicaset.rs:225-256 | Those bytes read back as exactly the parameters and the count. |
| Identity.Feed | src/controllers/restatedeployment/reconcilers/replicaset.rs:199-250 | The hasher, fed one write after the other, has received the whole hash input. |
| Identity.PathAndFlagCollide | src/controllers/restatedeployment/reconcilers/replicaset.rs:206-223 | Inputs that differ in the service path and the HTTP/1.1 flag feed the hasher the same bytes exactly when both agree or the unflagged path is the flagged one followed by the flag's text. |
| Identity.ClusterAndPathCollide | src/controllers/restatedeployment/reconcilers/replicaset.rs:206-223 | Inputs that differ in the cluster and the service path do exactly when the boundary between the two texts can be shifted. |
| Identity.EarlierInputsCollide | src/controllers/restatedeployment/reconcilers/replicaset.rs:206-223 | Two such inputs, concretely. |
| Identity.SafeEncodeReads | src/controllers/restatedeployment/reconcilers/replicaset.rs:259-275 | Every number reads back from its digits, so the encoding is injective. |
| Identity.SafeEncodeWrites | src/controllers/restatedeployment/reconcilers/replicaset.rs:259-275 | Only the ten characters of the safe alphabet are written. |
| Identity.SafeEncodeFits | src/controllers/restatedeployment/reconcilers/replicaset.rs:264-265 | A 32-bit hash takes at most ten characters, and only zero takes none. |
| Identity.SafeEncodeU32 | src/controllers/restatedeployment/reconcilers/replicaset.rs:261-275 | The loop writes those digits. |
| Retry.ChecksAreBounded | src/controllers/restatedeployment/retry.rs:21-31 | Checks paced by the backoff number at most 12 + T/300 in the first T seconds: a dozen more than the routine rate, however long the wait. |
| Retry.ChecksKeepComing | src/controllers/restatedeployment/retry.rs:21-31 | Checks that follow each other by exactly that wait number at least 11 + T/300 by any T past the first 1405 seconds: the bound above leaves one more. |
| Retry.WaitsNeverShrink | src/controllers/restatedeployment/retry.rs:38-62 | In an unbroken streak of admin failures the waits before jitter never shrink, even when status writes are lost. |
| Retry.TransitionNeverLate | src/controllers/restatedeployment/controller.rs:1126-1132 | The stored transition time is no later than any stored failure of the streak, so its length is never underestimated. |
| Retry.WaitCoversStreak | src/controllers/restatedeployment/retry.rs:38-62 | Each wait of the streak is at least half a minute and at least a quarter of the time since any stored failure of it, up to five minutes. |
| Retry.WaitCountsOnlyStreak | src/controllers/restatedeployment/retry.rs:38-62 | After a deployment was well, each wait is at most half a minute or a quarter of the time since the first failure of the streak. |
| Retry.FirstWaits | src/controllers/restatedeployment/retry.rs:38-62 | A failure after any condition that is not an admin failure waits half a minute, and so does each later one until a status write gets through. |
| Retry.AdminWaitIsBounded | src/controllers/restatedeployment/retry.rs:21-36 | Every jittered wait for a failed admin call is the quarter of the time waited, as bounded for a blocked deletion, and less than a fifth more; so it lies between 30 seconds and 6 minutes. |
| Retry.HealthyRequeueWakesInTime | src/controllers/restatedeployment/retry.rs:69-82 | A healthy deployment is re-checked exactly when its next removal is due if that is within 5 minutes, at once if it is past due, no later than it in any case, within 6 minutes, and not before 5 without one. |

## Left out

- LifecycleDrain.QuietDrainEnds: about ReplicaSet passes; a pass that finds work in flight keeps the version and promises nothing about when that work ends.
- Operator.Reconciler.Reconcile: a hash collision, the Service object, tunnel URLs, events, metrics and the status write are not modelled; a pass that meets one of them fails or goes on as modelled.
- StorageRounds.ChangeSettles: starts from a change in order; after a recreate was cut between its applies the strategy may be lost, as StorageStrategy says exactly.
- Operator.Reconciler.CleanupOldVersions: proved as part of ReplicaSet passes, with no autoscaler resizing a version between two of its calls, though the step machine lets one at any step; of the Configuration loop the planned writes and what replaying them does are proved, and Knative's order of Configuration, Route and registration calls is not modelled.
- Policy.ModeFor: a drain deadline beyond chrono's range, which the source treats as no deadline, is not modelled; times are unbounded integers.
- Usage.DeploymentUsage: counts are unbounded naturals, so a sum over 64 bits does not overflow.
- StatefulSetReconciler.Reconciler.Reconcile: resizing the claims first and every other object of a RestateCluster are not modelled; the claims only gate the pass.
- StorageChange.StorageChangeKeepsStrategy: nobody edits the update strategy during the change.
- Identity.HashInput: the FNV hash and string encodings are uninterpreted; only the bytes fed and the digits written are modelled.
- Partial ownership, where one version serves a strict subset of another's services, is a documented limitation and no claim is made about it on the untouched path.
- Readiness of pods, clusters, Routes and Revisions appears as a nondeterministic observation.
- HTTP transport, watch streams, generated resource types, network policies, signing keys, canary jobs and suspension are left out; they would add data construction and small one-branch claims.
