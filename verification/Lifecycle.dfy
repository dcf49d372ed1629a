// The RestateDeployment version lifecycle as a step machine. One label is one API write or
// read of the operator, one step of the rest of the world, or a crash, so a run over labels is
// one interleaving.
module Lifecycle {
  import opened Base
  import opened Usage
  import opened Policy
  import opened Restate
  import opened Registration
  import opened Cleanup

  // When a version's deadline was last stamped, and the drain delay it was stamped with.
  datatype Stamp = Stamp(at: Time, delay: nat)

  // What a cleanup pass still has to write, and how it judged each candidate.
  datatype Job = Job(
    queue: seq<Write>,
    active: set<Name>,
    due: set<Name>,
    unstamped: set<Name>,
    // nothing blocks and nothing waits: a deletion pass may release the finalizer
    settled: bool)

  // Where a pass stands. Each phase carries the spec the pass started with.
  datatype Phase =
    | Idle
    | Adopting(rsd: Rsd, writes: seq<Write>)
    | Checking(rsd: Rsd)
    | Querying(rsd: Rsd)
    | Registering(rsd: Rsd, snapshot: UsageMap, force: bool)
    | Recording(rsd: Rsd, snapshot: UsageMap, id: DeploymentId)
    | Confirming(rsd: Rsd, snapshot: UsageMap, id: DeploymentId)
    | QueryingForDeletion(rsd: Rsd)
    | Deriving(rsd: Rsd, queryMode: CleanupMode, snapshot: UsageMap)
    | Planning(rsd: Rsd, mode: CleanupMode, snapshot: UsageMap, except: Option<Name>)
    | Cleaning(rsd: Rsd, mode: CleanupMode, job: Job)
    | Released(clusterGone: bool)

  datatype World = World(
    rsd: Rsd,
    // the services each version's endpoint exposes
    discovery: map<Name, set<Service>>,
    server: Server,
    versions: map<Name, Version>,
    hpas: set<Name>,
    clock: Time,
    phase: Phase,
    // observations about the run, read by no step
    stamps: map<Name, Stamp>,
    disturbed: set<Name>,
    // versions registered by a pass that stopped before recording the id
    lost: set<Name>)

  // What the operator's environment decides for its next step.
  datatype Choice = Choice(
    ready: bool,
    newId: DeploymentId,
    owned: seq<DeploymentId>,
    order: seq<Name>,
    hpaApplied: bool)

  datatype Label =
    | Env(action: EnvAction)
    | Tick(elapsed: nat)
    | Edit(rsd: Rsd)
    // an autoscaler changes its version's replicas
    | Autoscale(name: Name, replicas: nat)
    | Begin(clusterGone: bool)
    | Op(choice: Choice)
    | Crash

  function Services(w: World, n: Name): set<Service> {
    if n in w.discovery then w.discovery[n] else {}
  }

  function AdoptionWrites(w: World, rsd: Rsd): seq<Write> {
    (if rsd.desired in w.versions
     then [RestoreScale(rsd.desired, rsd.replicas)]
          + (if w.versions[rsd.desired].removeAt.Some? then [ClearDeadline(rsd.desired)] else [])
     else [Create(rsd.desired, rsd.replicas)])
    + (if rsd.desired in w.hpas then [DeleteHpa(rsd.desired)] else [])
  }

  function Edited(was: Rsd, to: Rsd): Rsd {
    if was.deletedAt.Some? then to.(deletedAt := was.deletedAt) else to
  }

  // An autoscaler never goes below one replica.
  function Autoscaled(w: World, n: Name, replicas: nat): World {
    if n in w.hpas && n in w.versions && replicas > 0
    then w.(versions := w.versions[n := w.versions[n].(replicas := replicas)])
    else w
  }

  function Apply(w: World, x: Write): World {
    var after := Effect(View(w.versions, map[], w.hpas), x, w.clock);
    w.(
      versions := after.versions,
      hpas := after.hpas,
      server := if x.Deregister? then Restate.Deregister(w.server, x.id) else w.server,
      stamps := if x.StampDeadline? then w.stamps[x.name := Stamp(w.clock, x.delay)] else w.stamps,
      disturbed :=
        if x.StampDeadline? then w.disturbed - {x.name}
        else if x.ClearDeadline? then w.disturbed + {x.name}
        else w.disturbed)
  }

  // No other version is owned and Restate routes to the recorded id: nothing to do.
  predicate FastPath(w: World, rsd: Rsd) {
    && (forall n :: n in w.versions ==> n == rsd.desired)
    && rsd.desired in w.versions
    && w.versions[rsd.desired].id.Some?
    && IsLatest(w.server, w.versions[rsd.desired].id.value)
  }

  predicate ListsOwned(owned: seq<DeploymentId>, versions: map<Name, Version>) {
    && (forall n :: n in versions && versions[n].id.Some? ==> versions[n].id.value in owned)
    && (forall id :: id in owned ==> exists n :: n in versions && versions[n].id == Some(id))
  }

  // Stopping here leaves an endpoint registered under an id that is on no version.
  predicate LosesRegistration(w: World) {
    && w.phase.Recording?
    && Own(w.phase.rsd.desired) in w.server.endpoints
    && Recorded(w, w.phase.rsd.desired) != Some(w.phase.id)
  }

  function Recorded(w: World, n: Name): Option<DeploymentId> {
    if n in w.versions then w.versions[n].id else None
  }

  function JobFor(p: Pass, view: View, order: seq<Name>): Job {
    var active := set n | n in order && n in view.versions && Judge(p, view.usage, view.versions[n]).Blocked?;
    var due := set n | n in order && n in view.versions && Judge(p, view.usage, view.versions[n]).Due?;
    var unstamped := set n | n in order && n in view.versions && Judge(p, view.usage, view.versions[n]).Unstamped?;
    Job(
      PassWrites(p, view, order, 0),
      active,
      due,
      unstamped,
      p.mode.IsDeleting() && forall n :: n in order ==> n in due)
  }

  ghost function Step(w: World, l: Label): World {
    match l
    case Env(a) => w.(server := Environment(w.server, a))
    case Tick(elapsed) => w.(clock := w.clock + elapsed)
    // the spec of a terminating object can still be edited, but a deletion cannot be taken back
    case Edit(rsd) => w.(rsd := Edited(w.rsd, rsd))
    case Autoscale(n, replicas) => Autoscaled(w, n, replicas)
    case Begin(clusterGone) =>
      if !w.phase.Idle? then w
      else if w.rsd.deletedAt.None? then w.(phase := Adopting(w.rsd, AdoptionWrites(w, w.rsd)))
      else if clusterGone then w.(phase := Released(true))
      else w.(phase := QueryingForDeletion(w.rsd))
    case Crash =>
      if w.phase.Released? then w
      else w.(
        phase := Idle,
        lost := if LosesRegistration(w) then w.lost + {w.phase.rsd.desired} else w.lost)
    case Op(choice) => OpStep(w, choice)
  }

  ghost function OpStep(w: World, c: Choice): World {
    match w.phase
    case Idle => w
    case Released(_) => w
    case Adopting(rsd, writes) =>
      if writes == [] then w.(phase := Checking(rsd), disturbed := w.disturbed + {rsd.desired})
      else Apply(w, writes[0]).(phase := Adopting(rsd, writes[1..]))
    case Checking(rsd) =>
      if FastPath(w, rsd) then w.(phase := Idle) else w.(phase := Querying(rsd))
    case Querying(rsd) => QueryStep(w, rsd, c)
    case Registering(rsd, snapshot, force) =>
      if Own(rsd.desired) !in w.server.endpoints && c.newId in w.server.minted then w
      else
        var (server, id) := Restate.Register(w.server, Own(rsd.desired), Services(w, rsd.desired), force, c.newId);
        w.(server := server, phase := Recording(rsd, snapshot, id))
    case Recording(rsd, snapshot, id) =>
      Apply(w, RecordId(rsd.desired, id)).(
        phase := Confirming(rsd, snapshot, id),
        lost := w.lost - {rsd.desired})
    case Confirming(rsd, snapshot, id) =>
      if ConfirmedLatest(w.server, id, Services(w, rsd.desired))
      then w.(phase := Planning(rsd, Rollout, snapshot[id := DeploymentUsage(true, 0, 0)], Some(rsd.desired)))
      else w.(phase := Idle)
    case QueryingForDeletion(rsd) =>
      var queryMode := ModeFor(rsd, w.clock);
      w.(phase := Deriving(rsd, queryMode, UsageOf(w.server, queryMode)))
    case Deriving(rsd, _, snapshot) =>
      w.(phase := Planning(rsd, ModeFor(rsd, w.clock), snapshot, None))
    case Planning(rsd, mode, snapshot, except) =>
      if !IsNewestFirst(c.order, w.versions, except) then w
      else w.(phase := Cleaning(rsd, mode,
        JobFor(Pass(ReplicaSets, rsd, mode, w.clock), View(w.versions, snapshot, w.hpas), c.order)))
    case Cleaning(rsd, mode, job) =>
      if job.queue == [] then
        w.(phase := if job.settled then Released(false) else Idle, disturbed := w.disturbed + job.active)
      else
        var rest := w.(phase := Cleaning(rsd, mode, job.(queue := job.queue[1..])));
        if job.queue[0].EnsureHpa? && !c.hpaApplied then rest else Apply(rest, job.queue[0])
  }

  ghost function QueryStep(w: World, rsd: Rsd, c: Choice): World {
    if !ListsOwned(c.owned, w.versions) then w
    else
      var snapshot := UsageOf(w.server, Rollout);
      var action := PlanRegistration(Recorded(w, rsd.desired), snapshot, c.owned);
      match action
      case Conflict => w.(phase := Idle)
      case AlreadyLatest(_) => w.(phase := Planning(rsd, Rollout, snapshot, Some(rsd.desired)))
      case _ =>
        if c.ready then w.(phase := Registering(rsd, snapshot, action.Overwrites()))
        else w.(phase := Planning(rsd, Rollout, snapshot, Some(rsd.desired)))
  }

  ghost function Exec(w: World, run: seq<Label>): World
    decreases |run|
  {
    if run == [] then w else Step(Exec(w, run[..|run| - 1]), run[|run| - 1])
  }

  // A RestateDeployment nobody has reconciled yet: none of its endpoints is registered.
  ghost predicate Initial(w: World) {
    && Consistent(w.server)
    && (forall n :: Own(n) !in w.server.endpoints)
    && w.versions == map[] && w.hpas == {} && w.phase.Idle?
    && w.stamps == map[] && w.disturbed == {} && w.lost == {}
  }
}
