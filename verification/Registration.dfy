// Which registration the current version needs, if any, and whether Restate heard it
// (registration.rs).
module Registration {
  import opened Base
  import opened Usage
  import opened Restate

  datatype Action =
    | Register
    | Promote(supersededBy: DeploymentId)
    | AlreadyLatest(id: DeploymentId)
    | Conflict
  {
    predicate Overwrites() {
      Promote?
    }
  }

  predicate HoldsLatest(usage: UsageMap, id: DeploymentId) {
    id in usage && usage[id].latestForService
  }

  // One of our ids, other than the recorded one, that currently serves new invocations.
  predicate Supersedes(usage: UsageMap, recorded: DeploymentId, id: DeploymentId) {
    id != recorded && HoldsLatest(usage, id)
  }

  // The first of our ids that does.
  function FirstHolder(owned: seq<DeploymentId>, recorded: DeploymentId, usage: UsageMap): (r: Option<DeploymentId>)
    ensures r.None? ==> forall id :: id in owned ==> !Supersedes(usage, recorded, id)
    ensures r.Some? ==> r.value in owned && Supersedes(usage, recorded, r.value)
  {
    if owned == [] then None
    else if Supersedes(usage, recorded, owned[0]) then Some(owned[0])
    else FirstHolder(owned[1..], recorded, usage)
  }

  // The order ids are listed in.
  predicate AtMost(a: DeploymentId, b: DeploymentId) {
    a == [] || (b != [] && (a[0] < b[0] || (a[0] == b[0] && AtMost(a[1..], b[1..]))))
  }

  predicate Ordered(ids: seq<DeploymentId>) {
    forall i, j :: 0 <= i < j < |ids| ==> AtMost(ids[i], ids[j])
  }

  lemma {:induction false} AtMostIsTotal(a: DeploymentId, b: DeploymentId)
    ensures AtMost(a, b) || AtMost(b, a)
  {
    if a != [] && b != [] && a[0] == b[0] {
      AtMostIsTotal(a[1..], b[1..]);
    }
  }

  lemma {:induction false} AtMostIsTransitive(a: DeploymentId, b: DeploymentId, c: DeploymentId)
    requires AtMost(a, b) && AtMost(b, c)
    ensures AtMost(a, c)
  {
    if a != [] && a[0] == b[0] == c[0] {
      AtMostIsTransitive(a[1..], b[1..], c[1..]);
    }
  }

  // It is the order of a dictionary: the shorter of two that agree comes first, and otherwise the
  // one with the smaller character where they first differ.
  lemma {:induction false} AtMostIsLexicographic(a: DeploymentId, b: DeploymentId)
    ensures AtMost(a, b) <==>
      a <= b || exists i :: 0 <= i < |a| && i < |b| && a[..i] == b[..i] && a[i] < b[i]
  {
    if a != [] && b != [] && a[0] == b[0] {
      AtMostIsLexicographic(a[1..], b[1..]);
      FirstDifference(a, b);
      assert a <= b <==> a[1..] <= b[1..];
    } else if a != [] && b != [] {
      assert a[..0] == b[..0];
      assert forall i :: 0 < i < |a| && i < |b| ==> a[..i][0] == a[0] && b[..i][0] == b[0];
    }
  }

  lemma FirstDifference(a: DeploymentId, b: DeploymentId)
    requires a != [] && b != [] && a[0] == b[0]
    ensures
      (exists i :: 0 <= i < |a| && i < |b| && a[..i] == b[..i] && a[i] < b[i]) <==>
      (exists i :: 0 <= i < |a| - 1 && i < |b| - 1 && a[1..][..i] == b[1..][..i] && a[1..][i] < b[1..][i])
  {
    if i :| 0 <= i < |a| && i < |b| && a[..i] == b[..i] && a[i] < b[i] {
      assert a[1..][..i - 1] == a[..i][1..] && b[1..][..i - 1] == b[..i][1..];
      assert a[1..][i - 1] < b[1..][i - 1];
    }
    if i :| 0 <= i < |a| - 1 && i < |b| - 1 && a[1..][..i] == b[1..][..i] && a[1..][i] < b[1..][i] {
      assert a[..i + 1] == [a[0]] + a[1..][..i] && b[..i + 1] == [b[0]] + b[1..][..i];
      assert a[i + 1] < b[i + 1];
    }
  }

  // A set of ids, kept in order.
  function Insert(ids: seq<DeploymentId>, id: DeploymentId): seq<DeploymentId> {
    if ids == [] then [id]
    else if ids[0] == id then ids
    else if AtMost(id, ids[0]) then [id] + ids
    else [ids[0]] + Insert(ids[1..], id)
  }

  lemma {:induction false} InsertKeepsOrder(ids: seq<DeploymentId>, id: DeploymentId)
    requires Ordered(ids)
    ensures Ordered(Insert(ids, id)) && forall x :: x in Insert(ids, id) <==> x == id || x in ids
  {
    if ids != [] && ids[0] != id {
      AtMostIsTotal(id, ids[0]);
      if AtMost(id, ids[0]) {
        forall j | 0 <= j < |ids| ensures AtMost(id, ids[j]) {
          if j > 0 { AtMostIsTransitive(id, ids[0], ids[j]); }
        }
      } else {
        InsertKeepsOrder(ids[1..], id);
        var rest := Insert(ids[1..], id);
        assert forall x :: x in ids <==> x == ids[0] || x in ids[1..];
        forall j | 0 <= j < |rest| ensures AtMost(ids[0], rest[j]) {
          if rest[j] != id {
            assert rest[j] in rest;
            var k :| 0 <= k < |ids[1..]| && ids[1..][k] == rest[j];
            assert ids[k + 1] == rest[j];
          }
        }
      }
    }
  }

  // With the ids in order, a tie between two of our versions always names the least.
  lemma {:induction false} LeastHolder(owned: seq<DeploymentId>, recorded: DeploymentId, usage: UsageMap)
    requires Ordered(owned)
    ensures
      match FirstHolder(owned, recorded, usage)
      case None => forall id :: id in owned ==> !Supersedes(usage, recorded, id)
      case Some(holder) =>
        && holder in owned && Supersedes(usage, recorded, holder)
        && forall id :: id in owned && Supersedes(usage, recorded, id) ==> id == holder || AtMost(holder, id)
  {
    if owned != [] && !Supersedes(usage, recorded, owned[0]) {
      LeastHolder(owned[1..], recorded, usage);
      assert forall id :: id in owned ==> id == owned[0] || id in owned[1..];
    }
  }

  // `owned` lists the ids recorded on the versions of this RestateDeployment, in order.
  function PlanRegistration(recorded: Option<DeploymentId>, usage: UsageMap, owned: seq<DeploymentId>): Action {
    if recorded.None? || recorded.value !in usage then Register
    else if usage[recorded.value].latestForService then AlreadyLatest(recorded.value)
    else
      match FirstHolder(owned, recorded.value, usage)
      case Some(holder) => Promote(holder)
      case None => Conflict
  }

  // Every discovered service routes to the registered deployment; vacuous when none was found.
  predicate ConfirmedLatest(s: Server, id: DeploymentId, services: set<Service>) {
    forall v :: v in services ==> v in s.routes && s.routes[v] == id
  }
}
