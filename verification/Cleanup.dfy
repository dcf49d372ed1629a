// One pass of cleanup over the versions that are not current: which of them Restate still
// needs, which wait out their drain, and what is written to Kubernetes and Restate for each
// (replicaset.rs and knative.rs, which run the same loop over ReplicaSets and Configurations).
module Cleanup {
  import opened Base
  import opened Usage
  import opened Policy

  // The parsed `remove-version-at` annotation.
  datatype Deadline = Unreadable | At(time: Time)

  datatype Version = Version(
    name: Name,
    created: Time,
    replicas: nat,
    id: Option<DeploymentId>,
    removeAt: Option<Deadline>)

  // Writes to Kubernetes and Restate; the version's name is kept on each for reference.
  datatype Write =
    | Create(name: Name, replicas: nat)
    | RestoreScale(name: Name, replicas: nat)
    | ScaleToZero(name: Name)
    | EnsureHpa(name: Name)
    | DeleteHpa(name: Name)
    | StampDeadline(name: Name, delay: nat)
    | ClearDeadline(name: Name)
    | RecordId(name: Name, id: DeploymentId)
    | Deregister(name: Name, id: DeploymentId)
    | DeleteVersion(name: Name)

  datatype Flavour = ReplicaSets | Configurations

  // What one pass is told: the mode and spec it runs under and the instant it started.
  datatype Pass = Pass(flavour: Flavour, rsd: Rsd, mode: CleanupMode, now: Time)

  // What one pass reads: the reflector caches and the usage query's answer.
  datatype View = View(versions: map<Name, Version>, usage: UsageMap, hpas: set<Name>)

  datatype HpaPlan = Ensure | RemoveAndRestore | Skip

  function PlanActiveVersionHpa(autoscalingConfigured: bool, deleting: bool): HpaPlan {
    if deleting then Skip
    else if autoscalingConfigured then Ensure
    else RemoveAndRestore
  }

  predicate RetainForRollback(mode: CleanupMode, historicCount: nat, revisionHistoryLimit: int) {
    !mode.IsDeleting() && historicCount < revisionHistoryLimit
  }

  function UsageFor(usage: UsageMap, v: Version): Option<DeploymentUsage> {
    if v.id.Some? && v.id.value in usage then Some(usage[v.id.value]) else None
  }

  datatype Verdict = Blocked(usage: DeploymentUsage) | Due | Waiting(at: Time) | Unstamped

  function Judge(p: Pass, usage: UsageMap, v: Version): Verdict {
    var deployment := UsageFor(usage, v);
    if deployment.Some? && deployment.value.IsActive(p.mode) then Blocked(deployment.value)
    else if p.mode.SkipsDrainDelay() || deployment.None? then Due
    else
      match v.removeAt
      case Some(At(t)) => if t < p.now then Due else Waiting(t)
      case _ => Unstamped
  }

  // Whether a version due for removal is kept, given how many newer ones already were.
  predicate Retains(p: Pass, usage: UsageMap, v: Version, historicCount: nat) {
    Judge(p, usage, v).Due? && RetainForRollback(p.mode, historicCount, p.rsd.revisionHistoryLimit)
  }

  function ActiveHpaWrites(p: Pass, view: View, n: Name): seq<Write> {
    if p.flavour.Configurations? then []
    else
      match PlanActiveVersionHpa(p.rsd.autoscaling, p.mode.IsDeleting())
      case Ensure => [EnsureHpa(n)]
      case RemoveAndRestore => if n in view.hpas then [DeleteHpa(n), RestoreScale(n, p.rsd.replicas)] else []
      case Skip => []
  }

  function ScaleDownWrites(p: Pass, view: View, v: Version): seq<Write> {
    if p.flavour.Configurations? then []
    else (if v.name in view.hpas then [DeleteHpa(v.name)] else [])
         + (if v.replicas > 0 then [ScaleToZero(v.name)] else [])
  }

  function TearDownWrites(view: View, v: Version): seq<Write> {
    (if UsageFor(view.usage, v).Some? then [Deregister(v.name, v.id.value)] else [])
    + [DeleteVersion(v.name)]
  }

  function VersionWrites(p: Pass, view: View, v: Version, historicCount: nat): seq<Write> {
    match Judge(p, view.usage, v)
    case Blocked(_) =>
      ActiveHpaWrites(p, view, v.name) + (if v.removeAt.Some? then [ClearDeadline(v.name)] else [])
    case Due =>
      ScaleDownWrites(p, view, v)
      + (if Retains(p, view.usage, v, historicCount) then [] else TearDownWrites(view, v))
    case Waiting(_) => []
    case Unstamped => [StampDeadline(v.name, p.rsd.DrainDelay())]
  }

  // Versions are handled one after the other; `order` names them newest first.
  function PassWrites(p: Pass, view: View, order: seq<Name>, historicCount: nat): seq<Write> {
    if order == [] then []
    else if order[0] !in view.versions then PassWrites(p, view, order[1..], historicCount)
    else
      var v := view.versions[order[0]];
      VersionWrites(p, view, v, historicCount)
      + PassWrites(p, view, order[1..], historicCount + if Retains(p, view.usage, v, historicCount) then 1 else 0)
  }

  ghost predicate Distinct(order: seq<Name>) {
    forall i, j :: 0 <= i < j < |order| ==> order[i] != order[j]
  }

  // The candidates as the loop visits them: every owned version but the excepted one, once
  // each, sorted by creation time with the newest first.
  ghost predicate IsNewestFirst(order: seq<Name>, versions: map<Name, Version>, except: Option<Name>) {
    && Distinct(order)
    && (forall n :: n in order <==> n in versions && Some(n) != except)
    && (forall i, j :: 0 <= i < j < |order| ==> versions[order[i]].created >= versions[order[j]].created)
  }

  // The effect of one write on what a later pass reads, at instant `clock`.
  function Effect(view: View, w: Write, clock: Time): View {
    match w
    case Create(n, r) =>
      if n in view.versions then view
      else view.(versions := view.versions[n := Version(n, clock, r, None, None)])
    case EnsureHpa(n) => view.(hpas := view.hpas + {n})
    case DeleteHpa(n) => view.(hpas := view.hpas - {n})
    case Deregister(_, id) => view.(usage := view.usage - {id})
    case DeleteVersion(n) => view.(versions := view.versions - {n})
    case _ =>
      if w.name !in view.versions then view
      else view.(versions := view.versions[w.name := VersionEffect(view.versions[w.name], w, clock)])
  }

  function VersionEffect(v: Version, w: Write, clock: Time): Version {
    match w
    case RestoreScale(_, r) => v.(replicas := r)
    case ScaleToZero(_) => v.(replicas := 0)
    case StampDeadline(_, delay) => v.(removeAt := Some(At(clock + delay)))
    case ClearDeadline(_) => v.(removeAt := None)
    case RecordId(_, id) => v.(id := Some(id))
    case _ => v
  }

  function Effects(view: View, writes: seq<Write>, clock: Time): View
    decreases |writes|
  {
    if writes == [] then view else Effects(Effect(view, writes[0], clock), writes[1..], clock)
  }

  lemma {:induction false} EffectsConcat(view: View, a: seq<Write>, b: seq<Write>, clock: Time)
    ensures Effects(view, a + b, clock) == Effects(Effects(view, a, clock), b, clock)
    decreases |a|
  {
    if a == [] {
      assert a + b == b;
    } else {
      assert (a + b)[0] == a[0] && (a + b)[1..] == a[1..] + b;
      EffectsConcat(Effect(view, a[0], clock), a[1..], b, clock);
    }
  }
}
