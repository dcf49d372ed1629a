// The usage query as relational algebra: what both of its flavours return, and why a rollout
// may leave out the expensive half (cleanup.rs).
module UsageQuery {
  import opened Base
  import opened Usage
  import opened Restate

  // A row of `sys_service`; a service whose deployment is gone carries NULL.
  datatype ServiceRow = ServiceRow(name: Service, deployment: Option<DeploymentId>)

  // The tables the query reads. `sys_invocation_status` holds the invocations.
  datatype Database = Database(
    deployments: seq<DeploymentId>,
    services: seq<ServiceRow>,
    invocations: seq<Invocation>)

  datatype Row = Row(id: DeploymentId, latestForService: bool, pinned: int, unpinned: int)

  // One group of `GROUP BY key` with its `COUNT(*)`. NULL keys form a group of their own.
  datatype Group = Group(key: Option<DeploymentId>, count: nat)

  function Increment(groups: seq<Group>, key: Option<DeploymentId>): seq<Group> {
    if groups == [] then [Group(key, 1)]
    else if groups[0].key == key then [Group(key, groups[0].count + 1)] + groups[1..]
    else [groups[0]] + Increment(groups[1..], key)
  }

  function GroupCount(keys: seq<Option<DeploymentId>>): seq<Group> {
    if keys == [] then [] else Increment(GroupCount(keys[..|keys| - 1]), keys[|keys| - 1])
  }

  // The rows a left row is paired with: every match, or one NULL. NULL equals nothing, so a
  // NULL group never matches.
  function Matches(right: seq<Group>, id: DeploymentId): seq<nat> {
    if right == [] then []
    else (if right[0].key == Some(id) then [right[0].count] else []) + Matches(right[1..], id)
  }

  function Paired<A>(left: A, matches: seq<nat>): seq<(A, Option<nat>)> {
    if matches == [] then [(left, None)]
    else seq(|matches|, i requires 0 <= i < |matches| => (left, Some(matches[i])))
  }

  function LeftJoin<A>(left: seq<A>, key: A -> DeploymentId, right: seq<Group>): seq<(A, Option<nat>)> {
    if left == [] then [] else Paired(left[0], Matches(right, key(left[0]))) + LeftJoin(left[1..], key, right)
  }

  // The unfinished invocations that are pinned.
  function PinnedKeys(invocations: seq<Invocation>): seq<Option<DeploymentId>> {
    if invocations == [] then []
    else
      (if invocations[0].pinned.Some? && !invocations[0].completed then [invocations[0].pinned] else [])
      + PinnedKeys(invocations[1..])
  }

  // Invocations paired with the service they target.
  function KeysOf(service: Service, services: seq<ServiceRow>): seq<Option<DeploymentId>> {
    if services == [] then []
    else (if services[0].name == service then [services[0].deployment] else []) + KeysOf(service, services[1..])
  }

  // Those whose invocation is unfinished and not pinned yet.
  function UnpinnedKeys(invocations: seq<Invocation>, services: seq<ServiceRow>): seq<Option<DeploymentId>> {
    if invocations == [] then []
    else
      (if invocations[0].pinned.None? && !invocations[0].completed then KeysOf(invocations[0].service, services) else [])
      + UnpinnedKeys(invocations[1..], services)
  }

  // The deployments that services route to.
  function LatestKeys(services: seq<ServiceRow>): seq<Option<DeploymentId>> {
    if services == [] then []
    else (if services[0].deployment.Some? then [services[0].deployment] else []) + LatestKeys(services[1..])
  }

  function Coalesce(n: Option<nat>): int {
    if n.Some? then n.value else 0
  }

  function Query(mode: CleanupMode, db: Database): seq<Row> {
    var latest := GroupCount(LatestKeys(db.services));
    var pinned := GroupCount(PinnedKeys(db.invocations));
    var l := LeftJoin(db.deployments, (id: DeploymentId) => id, latest);
    var lp := LeftJoin(l, (r: (DeploymentId, Option<nat>)) => r.0, pinned);
    if mode.NeedsUnpinnedCount() then
      var unpinned := GroupCount(UnpinnedKeys(db.invocations, db.services));
      var lpu := LeftJoin(lp, (r: ((DeploymentId, Option<nat>), Option<nat>)) => r.0.0, unpinned);
      seq(|lpu|, i requires 0 <= i < |lpu| =>
        Row(lpu[i].0.0.0, lpu[i].0.0.1.Some?, Coalesce(lpu[i].0.1), Coalesce(lpu[i].1)))
    else
      seq(|lp|, i requires 0 <= i < |lp| => Row(lp[i].0.0, lp[i].0.1.Some?, Coalesce(lp[i].1), 0))
  }

  // --- What grouping and joining amount to ---

  ghost predicate HasKey(groups: seq<Group>, k: Option<DeploymentId>) {
    groups != [] && (groups[0].key == k || HasKey(groups[1..], k))
  }

  ghost predicate DistinctKeys(groups: seq<Group>) {
    groups != [] ==> !HasKey(groups[1..], groups[0].key) && DistinctKeys(groups[1..])
  }

  ghost function Tally(groups: seq<Group>, k: Option<DeploymentId>): nat {
    if groups == [] then 0 else (if groups[0].key == k then groups[0].count else 0) + Tally(groups[1..], k)
  }

  lemma {:induction false} IncrementTallies(groups: seq<Group>, key: Option<DeploymentId>, k: Option<DeploymentId>)
    ensures Tally(Increment(groups, key), k) == Tally(groups, k) + if k == key then 1 else 0
    ensures HasKey(Increment(groups, key), k) <==> HasKey(groups, k) || k == key
    decreases |groups|
  {
    if groups != [] {
      assert groups[0].key != key ==> Increment(groups, key)[1..] == Increment(groups[1..], key);
      IncrementTallies(groups[1..], key, k);
    }
  }

  lemma {:induction false} IncrementKeepsDistinct(groups: seq<Group>, key: Option<DeploymentId>)
    requires DistinctKeys(groups)
    ensures DistinctKeys(Increment(groups, key))
    decreases |groups|
  {
    if groups != [] {
      if groups[0].key != key {
        assert Increment(groups, key)[1..] == Increment(groups[1..], key);
        IncrementKeepsDistinct(groups[1..], key);
        IncrementTallies(groups[1..], key, groups[0].key);
      }
    }
  }

  // Grouping counts each key's occurrences, in one group per key.
  lemma {:induction false} GroupCountCounts(keys: seq<Option<DeploymentId>>, k: Option<DeploymentId>)
    ensures DistinctKeys(GroupCount(keys))
    ensures Tally(GroupCount(keys), k) == multiset(keys)[k]
    ensures HasKey(GroupCount(keys), k) <==> k in multiset(keys)
    decreases |keys|
  {
    if keys != [] {
      var before, last := keys[..|keys| - 1], keys[|keys| - 1];
      GroupCountCounts(before, k);
      IncrementTallies(GroupCount(before), last, k);
      IncrementKeepsDistinct(GroupCount(before), last);
      assert keys == before + [last];
    }
  }

  lemma {:induction false} MatchesOnce(groups: seq<Group>, id: DeploymentId)
    requires DistinctKeys(groups)
    ensures Matches(groups, id) == if HasKey(groups, Some(id)) then [Tally(groups, Some(id))] else []
    ensures !HasKey(groups, Some(id)) ==> Tally(groups, Some(id)) == 0
    decreases |groups|
  {
    if groups != [] {
      MatchesOnce(groups[1..], id);
    }
  }

  // What a joined row sees of a grouped table: its key's count, or NULL when there is none.
  function Found(keys: seq<Option<DeploymentId>>, id: DeploymentId): Option<nat> {
    if Some(id) in multiset(keys) then Some(multiset(keys)[Some(id)]) else None
  }

  // Joining onto a grouped table keeps the left rows one for one.
  lemma {:induction false} LeftJoinKeepsRows<A>(left: seq<A>, key: A -> DeploymentId, keys: seq<Option<DeploymentId>>)
    ensures |LeftJoin(left, key, GroupCount(keys))| == |left|
    ensures forall i :: 0 <= i < |left| ==>
              LeftJoin(left, key, GroupCount(keys))[i] == (left[i], Found(keys, key(left[i])))
    decreases |left|
  {
    if left != [] {
      LeftJoinKeepsRows(left[1..], key, keys);
      var id := key(left[0]);
      GroupCountCounts(keys, Some(id));
      MatchesOnce(GroupCount(keys), id);
      hide GroupCount, Matches;
      assert Paired(left[0], Matches(GroupCount(keys), id)) == [(left[0], Found(keys, id))];
    }
  }

  // --- What the query returns ---

  // One row per registered deployment, whichever flavour ran: nothing joined in adds or drops
  // a row, and every count is the number of rows its filter selects.
  lemma OneRowPerDeployment(mode: CleanupMode, db: Database)
    ensures |Query(mode, db)| == |db.deployments|
    ensures forall i :: 0 <= i < |db.deployments| ==>
      var id := db.deployments[i];
      Query(mode, db)[i] == Row(id,
        Some(id) in multiset(LatestKeys(db.services)),
        multiset(PinnedKeys(db.invocations))[Some(id)],
        if mode == Deleting then multiset(UnpinnedKeys(db.invocations, db.services))[Some(id)] else 0)
  {
    var latest, pinned := LatestKeys(db.services), PinnedKeys(db.invocations);
    var unpinned := UnpinnedKeys(db.invocations, db.services);
    var byId, byRow, byPair :=
      (id: DeploymentId) => id,
      (r: (DeploymentId, Option<nat>)) => r.0,
      (r: ((DeploymentId, Option<nat>), Option<nat>)) => r.0.0;
    var l := LeftJoin(db.deployments, byId, GroupCount(latest));
    var lp := LeftJoin(l, byRow, GroupCount(pinned));
    LeftJoinKeepsRows(db.deployments, byId, latest);
    LeftJoinKeepsRows(l, byRow, pinned);
    LeftJoinKeepsRows(lp, byPair, unpinned);
    hide LeftJoin, GroupCount, LatestKeys, PinnedKeys, UnpinnedKeys;
  }

  // DataFusion's counts are signed and ours are not.
  function UsageOfRow(r: Row): DeploymentUsage {
    DeploymentUsage(r.latestForService, Max(0, r.pinned), Max(0, r.unpinned))
  }

  lemma {:induction false} KeysOfAreLatest(service: Service, services: seq<ServiceRow>, id: DeploymentId)
    requires Some(id) in KeysOf(service, services)
    ensures Some(id) in LatestKeys(services)
  {
    if services[0].name != service || services[0].deployment != Some(id) {
      KeysOfAreLatest(service, services[1..], id);
    }
  }

  // Unpinned work is attributed through the column that makes a deployment latest.
  lemma {:induction false} UnpinnedKeysAreLatest(
      invocations: seq<Invocation>, services: seq<ServiceRow>, id: DeploymentId)
    requires Some(id) in UnpinnedKeys(invocations, services)
    ensures Some(id) in LatestKeys(services)
  {
    if Some(id) in UnpinnedKeys(invocations[1..], services) {
      UnpinnedKeysAreLatest(invocations[1..], services, id);
    } else {
      KeysOfAreLatest(invocations[0].service, services, id);
    }
  }

  // A rollout judges every deployment the same whether or not it asks for the unpinned counts.
  lemma RolloutNeedsNoUnpinnedCount(db: Database, i: nat)
    requires i < |db.deployments|
    ensures |Query(Rollout, db)| == |Query(Deleting, db)| == |db.deployments|
    ensures UsageOfRow(Query(Rollout, db)[i]).IsActive(Rollout) <==> UsageOfRow(Query(Deleting, db)[i]).IsActive(Rollout)
  {
    OneRowPerDeployment(Rollout, db);
    OneRowPerDeployment(Deleting, db);
    hide Query, LatestKeys, PinnedKeys, UnpinnedKeys;
    var id := db.deployments[i];
    if Some(id) in multiset(UnpinnedKeys(db.invocations, db.services)) {
      UnpinnedKeysAreLatest(db.invocations, db.services, id);
    }
  }

  // A drain does: work waiting to be pinned holds it, and only the full query shows that work.
  lemma DrainNeedsUnpinnedCount() returns (db: Database)
    ensures |Query(Rollout, db)| == |Query(Deleting, db)| == 1
    ensures UsageOfRow(Query(Deleting, db)[0]).IsActive(Deleting) && !UsageOfRow(Query(Rollout, db)[0]).IsActive(Deleting)
  {
    db := Database(["dp_1"], [ServiceRow("greeter", Some("dp_1"))], [Invocation("greeter", None, false)]);
    OneRowPerDeployment(Rollout, db);
    OneRowPerDeployment(Deleting, db);
    assert db.services[1..] == [] && db.invocations[1..] == [];
    assert UnpinnedKeys(db.invocations, db.services) == [Some("dp_1")];
    assert PinnedKeys(db.invocations) == [];
  }

  // --- Every unfinished invocation is counted once ---

  ghost predicate UniqueNames(services: seq<ServiceRow>) {
    forall i, j :: 0 <= i < j < |services| ==> services[i].name != services[j].name
  }

  function RouteOf(service: Service, services: seq<ServiceRow>): Option<DeploymentId> {
    if services == [] then None
    else if services[0].name == service then services[0].deployment
    else RouteOf(service, services[1..])
  }

  // The deployment an unfinished invocation is bound to, or would be bound to now.
  function Attribution(i: Invocation, services: seq<ServiceRow>): Option<DeploymentId> {
    if i.completed then None
    else if i.pinned.Some? then i.pinned
    else RouteOf(i.service, services)
  }

  function Attributed(invocations: seq<Invocation>, services: seq<ServiceRow>, id: DeploymentId): nat {
    if invocations == [] then 0
    else (if Attribution(invocations[0], services) == Some(id) then 1 else 0) + Attributed(invocations[1..], services, id)
  }

  // The unfinished invocations attributable to some registered deployment.
  function Attributable(invocations: seq<Invocation>, services: seq<ServiceRow>, deployments: seq<DeploymentId>): nat {
    if invocations == [] then 0
    else
      var to := Attribution(invocations[0], services);
      (if to.Some? && to.value in deployments then 1 else 0) + Attributable(invocations[1..], services, deployments)
  }

  lemma {:induction false} KeysOfUnnamed(service: Service, services: seq<ServiceRow>)
    requires forall i :: 0 <= i < |services| ==> services[i].name != service
    ensures KeysOf(service, services) == []
  {
    if services != [] {
      assert forall i :: 0 <= i < |services[1..]| ==> services[1..][i] == services[i + 1];
      KeysOfUnnamed(service, services[1..]);
    }
  }

  lemma {:induction false} KeysOfUnique(service: Service, services: seq<ServiceRow>, id: DeploymentId)
    requires UniqueNames(services)
    ensures multiset(KeysOf(service, services))[Some(id)] == if RouteOf(service, services) == Some(id) then 1 else 0
  {
    if services != [] {
      assert forall i :: 0 <= i < |services[1..]| ==> services[1..][i] == services[i + 1];
      if services[0].name == service {
        KeysOfUnnamed(service, services[1..]);
        assert KeysOf(service, services) == [services[0].deployment];
      } else {
        KeysOfUnique(service, services[1..], id);
        assert KeysOf(service, services) == KeysOf(service, services[1..]);
      }
    }
  }

  lemma {:induction false} CountsAreAttributed(
      invocations: seq<Invocation>, services: seq<ServiceRow>, id: DeploymentId)
    requires UniqueNames(services)
    ensures multiset(PinnedKeys(invocations))[Some(id)] + multiset(UnpinnedKeys(invocations, services))[Some(id)]
         == Attributed(invocations, services, id)
  {
    if invocations != [] {
      CountsAreAttributed(invocations[1..], services, id);
      KeysOfUnique(invocations[0].service, services, id);
    }
  }

  function TotalAttributed(
      deployments: seq<DeploymentId>, invocations: seq<Invocation>, services: seq<ServiceRow>): nat {
    if deployments == [] then 0
    else Attributed(invocations, services, deployments[0]) + TotalAttributed(deployments[1..], invocations, services)
  }

  ghost predicate UniqueIds(ids: seq<DeploymentId>) {
    forall i, j :: 0 <= i < j < |ids| ==> ids[i] != ids[j]
  }

  // One invocation more adds one to exactly one deployment's count, if any.
  lemma {:induction false} TotalStep(
      deployments: seq<DeploymentId>, invocations: seq<Invocation>, services: seq<ServiceRow>)
    requires UniqueIds(deployments) && invocations != []
    ensures
      var to := Attribution(invocations[0], services);
      TotalAttributed(deployments, invocations, services)
      == TotalAttributed(deployments, invocations[1..], services) + if to.Some? && to.value in deployments then 1 else 0
    decreases |deployments|
  {
    if deployments != [] {
      assert forall i :: 0 <= i < |deployments[1..]| ==> deployments[1..][i] == deployments[i + 1];
      TotalStep(deployments[1..], invocations, services);
    }
  }

  lemma {:induction false} TotalIsAttributable(
      deployments: seq<DeploymentId>, invocations: seq<Invocation>, services: seq<ServiceRow>)
    requires UniqueIds(deployments)
    ensures TotalAttributed(deployments, invocations, services) == Attributable(invocations, services, deployments)
    decreases |invocations|
  {
    if invocations == [] {
      NothingAttributed(deployments, services);
    } else {
      TotalIsAttributable(deployments, invocations[1..], services);
      TotalStep(deployments, invocations, services);
    }
  }

  lemma {:induction false} NothingAttributed(deployments: seq<DeploymentId>, services: seq<ServiceRow>)
    ensures TotalAttributed(deployments, [], services) == 0
  {
    if deployments != [] {
      NothingAttributed(deployments[1..], services);
    }
  }

  function InFlightTotal(rows: seq<Row>): int {
    if rows == [] then 0 else rows[0].pinned + rows[0].unpinned + InFlightTotal(rows[1..])
  }

  lemma {:induction false} TotalOfRows(
      rows: seq<Row>, deployments: seq<DeploymentId>, invocations: seq<Invocation>, services: seq<ServiceRow>)
    requires |rows| == |deployments|
    requires forall i :: 0 <= i < |rows| ==>
      rows[i].pinned + rows[i].unpinned == Attributed(invocations, services, deployments[i])
    ensures InFlightTotal(rows) == TotalAttributed(deployments, invocations, services)
    decreases |rows|
  {
    if rows != [] {
      TotalOfRows(rows[1..], deployments[1..], invocations, services);
    }
  }

  // Conservation: with unique deployment ids and service names, the full query counts every
  // unfinished invocation that belongs to a registered deployment exactly once.
  lemma EachInvocationCountedOnce(db: Database)
    requires UniqueIds(db.deployments) && UniqueNames(db.services)
    ensures InFlightTotal(Query(Deleting, db)) == Attributable(db.invocations, db.services, db.deployments)
  {
    OneRowPerDeployment(Deleting, db);
    forall i | 0 <= i < |db.deployments|
      ensures Query(Deleting, db)[i].pinned + Query(Deleting, db)[i].unpinned
           == Attributed(db.invocations, db.services, db.deployments[i])
    {
      CountsAreAttributed(db.invocations, db.services, db.deployments[i]);
    }
    TotalOfRows(Query(Deleting, db), db.deployments, db.invocations, db.services);
    TotalIsAttributable(db.deployments, db.invocations, db.services);
  }

  // --- The map cleanup works from ---

  function Insert(m: UsageMap, r: Row): UsageMap {
    if r.id in m then m[r.id := m[r.id].Merge(UsageOfRow(r))] else m[r.id := UsageOfRow(r)]
  }

  function ToMap(rows: seq<Row>): UsageMap {
    if rows == [] then map[] else Insert(ToMap(rows[..|rows| - 1]), rows[|rows| - 1])
  }

  method IntoMap(rows: seq<Row>) returns (usage: UsageMap)
    ensures usage == ToMap(rows)
  {
    usage := map[];
    for i := 0 to |rows|
      invariant usage == ToMap(rows[..i])
    {
      var r := rows[i];
      var u := DeploymentUsage(r.latestForService, Max(0, r.pinned), Max(0, r.unpinned));
      if r.id in usage {
        usage := usage[r.id := usage[r.id].Merge(u)];
      } else {
        usage := usage[r.id := u];
      }
      assert rows[..i + 1][..i] == rows[..i];
    }
    assert rows[..|rows|] == rows;
  }

  // Should a deployment ever come back in several rows, the map holds on to it whenever any of
  // them would.
  lemma {:induction false} MapIsMostConservative(rows: seq<Row>, id: DeploymentId, mode: CleanupMode)
    ensures id in ToMap(rows) <==> exists i :: 0 <= i < |rows| && rows[i].id == id
    ensures id in ToMap(rows) && ToMap(rows)[id].IsActive(mode) <==>
              exists i :: 0 <= i < |rows| && rows[i].id == id && UsageOfRow(rows[i]).IsActive(mode)
    decreases |rows|
  {
    if rows != [] {
      var k := |rows| - 1;
      var before := rows[..k];
      MapIsMostConservative(before, id, mode);
      assert forall i :: 0 <= i < k ==> before[i] == rows[i];
      if id in ToMap(before) {
        var j :| 0 <= j < |before| && before[j].id == id;
        assert rows[j].id == id;
      }
      if id in ToMap(before) && ToMap(before)[id].IsActive(mode) {
        var j :| 0 <= j < |before| && before[j].id == id && UsageOfRow(before[j]).IsActive(mode);
        assert rows[j].id == id && UsageOfRow(rows[j]).IsActive(mode);
      }
    }
  }

  // The rows of a deployment, and the largest of their counts, negative ones taken for none.
  ghost predicate IsLargest(count: nat, rows: seq<Row>, id: DeploymentId, of: Row -> int) {
    && (forall i :: 0 <= i < |rows| && rows[i].id == id ==> of(rows[i]) <= count)
    && (exists i :: 0 <= i < |rows| && rows[i].id == id && Max(0, of(rows[i])) == count)
  }

  // What the map holds on to is exactly the largest count of each kind, and that some service
  // routes there if any row says so.
  lemma {:induction false} MapCountsAreLargest(rows: seq<Row>, id: DeploymentId)
    requires id in ToMap(rows)
    ensures IsLargest(ToMap(rows)[id].pinned, rows, id, (r: Row) => r.pinned)
    ensures IsLargest(ToMap(rows)[id].unpinned, rows, id, (r: Row) => r.unpinned)
    ensures ToMap(rows)[id].latestForService <==> exists i :: 0 <= i < |rows| && rows[i].id == id && rows[i].latestForService
    decreases |rows|
  {
    var k := |rows| - 1;
    var before := rows[..k];
    hide IsLargest;
    if id in ToMap(before) {
      MapCountsAreLargest(before, id);
      LargestOf(rows, id, (r: Row) => r.pinned, ToMap(before)[id].pinned);
      LargestOf(rows, id, (r: Row) => r.unpinned, ToMap(before)[id].unpinned);
      assert forall i :: 0 <= i < k ==> before[i] == rows[i];
    } else {
      MapIsMostConservative(before, id, Rollout);
      assert forall i :: 0 <= i < k ==> before[i] == rows[i];
      assert rows[k].id == id;
      OnlyOne(rows, id, (r: Row) => r.pinned);
      OnlyOne(rows, id, (r: Row) => r.unpinned);
    }
  }

  lemma OnlyOne(rows: seq<Row>, id: DeploymentId, of: Row -> int)
    requires rows != [] && rows[|rows| - 1].id == id && forall i :: 0 <= i < |rows| - 1 ==> rows[i].id != id
    ensures IsLargest(Max(0, of(rows[|rows| - 1])), rows, id, of)
  {
  }

  lemma LargestOf(rows: seq<Row>, id: DeploymentId, of: Row -> int, count: nat)
    requires rows != [] && IsLargest(count, rows[..|rows| - 1], id, of)
    ensures IsLargest(if rows[|rows| - 1].id == id then Max(count, of(rows[|rows| - 1])) else count, rows, id, of)
  {
    var k := |rows| - 1;
    var i :| 0 <= i < k && rows[..k][i].id == id && Max(0, of(rows[..k][i])) == count;
    assert rows[i].id == id;
    forall j | 0 <= j < k && rows[j].id == id ensures of(rows[j]) <= count {
      assert rows[..k][j] == rows[j];
    }
  }

  // --- The query and the server it asks ---

  ghost predicate RoutesMatch(routes: map<Service, DeploymentId>, services: seq<ServiceRow>) {
    forall v :: RouteOf(v, services) == if v in routes then Some(routes[v]) else None
  }

  // The tables a Restate server in state `s` presents.
  ghost predicate Presents(s: Server, db: Database) {
    && UniqueIds(db.deployments) && UniqueNames(db.services)
    && (forall id :: id in db.deployments <==> id in s.deployments)
    && RoutesMatch(s.routes, db.services)
    && db.invocations == s.invocations
  }

  lemma {:induction false} RouteOfUnnamed(service: Service, services: seq<ServiceRow>)
    requires forall i :: 0 <= i < |services| ==> services[i].name != service
    ensures RouteOf(service, services) == None
  {
    if services != [] {
      assert forall i :: 0 <= i < |services[1..]| ==> services[1..][i] == services[i + 1];
      RouteOfUnnamed(service, services[1..]);
    }
  }

  lemma {:induction false} LatestHasRoute(services: seq<ServiceRow>, id: DeploymentId) returns (v: Service)
    requires UniqueNames(services) && Some(id) in LatestKeys(services)
    ensures RouteOf(v, services) == Some(id)
  {
    assert forall i :: 0 <= i < |services[1..]| ==> services[1..][i] == services[i + 1];
    if services[0].deployment == Some(id) {
      v := services[0].name;
    } else {
      v := LatestHasRoute(services[1..], id);
      if v == services[0].name {
        RouteOfUnnamed(v, services[1..]);
      }
    }
  }

  lemma {:induction false} RouteIsLatest(services: seq<ServiceRow>, v: Service, id: DeploymentId)
    requires RouteOf(v, services) == Some(id)
    ensures Some(id) in LatestKeys(services)
  {
    if services[0].name != v {
      RouteIsLatest(services[1..], v, id);
    }
  }

  lemma KeysUnfold(invocations: seq<Invocation>, services: seq<ServiceRow>, k: Option<DeploymentId>)
    requires invocations != [] && k.Some?
    ensures multiset(PinnedKeys(invocations))[k] ==
      multiset(PinnedKeys(invocations[1..]))[k] + if invocations[0].pinned == k && !invocations[0].completed then 1 else 0
    ensures multiset(UnpinnedKeys(invocations, services))[k] ==
      multiset(UnpinnedKeys(invocations[1..], services))[k]
      + if invocations[0].pinned.None? && !invocations[0].completed then multiset(KeysOf(invocations[0].service, services))[k] else 0
  {
    hide KeysOf;
  }

  lemma {:induction false} CountsAreTheServers(
      routes: map<Service, DeploymentId>, services: seq<ServiceRow>, invocations: seq<Invocation>,
      id: DeploymentId)
    requires RoutesMatch(routes, services) && UniqueNames(services)
    ensures multiset(PinnedKeys(invocations))[Some(id)] == PinnedCount(invocations, id)
    ensures multiset(UnpinnedKeys(invocations, services))[Some(id)] == UnpinnedCount(invocations, routes, id)
    decreases |invocations|
  {
    if invocations != [] {
      KeysOfUnique(invocations[0].service, services, id);
      KeysUnfold(invocations, services, Some(id));
      CountsAreTheServers(routes, services, invocations[1..], id);
      hide PinnedKeys, UnpinnedKeys, KeysOf, RouteOf, UniqueNames;
      assert RouteOf(invocations[0].service, services) ==
        if invocations[0].service in routes then Some(routes[invocations[0].service]) else None;
    }
  }

  lemma {:induction false} RowInMap(rows: seq<Row>, i: nat)
    requires i < |rows| && forall j, k :: 0 <= j < k < |rows| ==> rows[j].id != rows[k].id
    ensures rows[i].id in ToMap(rows) && ToMap(rows)[rows[i].id] == UsageOfRow(rows[i])
    decreases |rows|
  {
    var before, id := rows[..|rows| - 1], rows[i].id;
    MapIsMostConservative(before, id, Rollout);
    assert forall j :: 0 <= j < |before| ==> before[j] == rows[j];
    if i < |before| {
      RowInMap(before, i);
    }
  }

  lemma QueryCoversServer(s: Server, db: Database, mode: CleanupMode, id: DeploymentId)
    requires Presents(s, db)
    ensures id in ToMap(Query(mode, db)) <==> id in s.deployments
  {
    var rows := Query(mode, db);
    OneRowPerDeployment(mode, db);
    MapIsMostConservative(rows, id, mode);
    assert id in s.deployments <==> id in db.deployments;
    hide ToMap, Query, UsageOfRow, Presents;
    if id in s.deployments {
      var i :| 0 <= i < |db.deployments| && db.deployments[i] == id;
      assert rows[i].id == id;
    }
  }

  lemma QueryAnswersFor(s: Server, db: Database, mode: CleanupMode, id: DeploymentId)
    requires Presents(s, db) && id in s.deployments
    ensures id in ToMap(Query(mode, db)) && ToMap(Query(mode, db))[id] == UsageOf(s, mode)[id]
  {
    var rows := Query(mode, db);
    OneRowPerDeployment(mode, db);
    assert id in db.deployments && UniqueIds(db.deployments);
    var i :| 0 <= i < |db.deployments| && db.deployments[i] == id;
    RowIsUsage(s, db, mode, id);
    hide Query, Presents, UsageOf, ToMap;
    RowInMap(rows, i);
  }

  // The query answers with exactly the usage the rest of the model takes a pass to work from.
  lemma QueryAnswersUsage(s: Server, db: Database, mode: CleanupMode)
    requires Presents(s, db)
    ensures ToMap(Query(mode, db)) == UsageOf(s, mode)
  {
    hide Query, Presents, ToMap;
    UsageCovers(s, mode);
    hide UsageOf;
    forall id ensures id in ToMap(Query(mode, db)) <==> id in UsageOf(s, mode) {
      QueryCoversServer(s, db, mode, id);
      assert id in UsageOf(s, mode) <==> id in UsageOf(s, mode).Keys;
    }
    forall id | id in UsageOf(s, mode) ensures ToMap(Query(mode, db))[id] == UsageOf(s, mode)[id] {
      assert id in UsageOf(s, mode).Keys;
      QueryAnswersFor(s, db, mode, id);
    }
  }

  lemma UsageCovers(s: Server, mode: CleanupMode)
    ensures UsageOf(s, mode).Keys == s.deployments.Keys
  {
  }

  lemma RowIsUsage(s: Server, db: Database, mode: CleanupMode, id: DeploymentId)
    requires Presents(s, db) && id in s.deployments
    ensures UsageOf(s, mode)[id] == DeploymentUsage(
      Some(id) in multiset(LatestKeys(db.services)),
      multiset(PinnedKeys(db.invocations))[Some(id)],
      if mode.NeedsUnpinnedCount() then multiset(UnpinnedKeys(db.invocations, db.services))[Some(id)] else 0)
  {
    CountsAreTheServers(s.routes, db.services, db.invocations, id);
    LatestByRoute(s, db.services, id);
    hide PinnedKeys, UnpinnedKeys, LatestKeys, PinnedCount, UnpinnedCount, RouteOf, IsLatest;
  }

  lemma LatestByRoute(s: Server, services: seq<ServiceRow>, id: DeploymentId)
    requires RoutesMatch(s.routes, services) && UniqueNames(services)
    ensures Some(id) in LatestKeys(services) <==> IsLatest(s, id)
  {
    if Some(id) in LatestKeys(services) {
      var v := LatestHasRoute(services, id);
      assert v in s.routes && s.routes[v] == id;
    }
    if IsLatest(s, id) {
      var v :| v in s.routes && s.routes[v] == id;
      RouteIsLatest(services, v, id);
    }
  }
}
