// Kubernetes server-side apply on the fields of one object: each field has a value and the set
// of managers that own it (Kubernetes documentation, "Server-Side Apply").
module ServerSideApply {
  import opened Base

  type Key = string

  datatype Field<M(==)> = Field(value: string, owners: set<M>)

  type Fields<M(==)> = map<Key, Field<M>>

  // Another manager owns a field this apply would change.
  predicate Conflicts<M(==)>(o: Fields<M>, m: M, config: map<Key, string>) {
    exists k :: k in config && k in o && o[k].value != config[k] && o[k].owners - {m} != {}
  }

  function AppliedField<M(==)>(o: Fields<M>, m: M, config: map<Key, string>, k: Key): Option<Field<M>> {
    if k in config then
      if k in o && o[k].value == config[k] then Some(Field(config[k], o[k].owners + {m}))
      else Some(Field(config[k], {m}))
    else if k in o then
      // a field its last owner no longer applies is removed
      if m in o[k].owners && o[k].owners == {m} then None else Some(Field(o[k].value, o[k].owners - {m}))
    else None
  }

  function Merged<M(==)>(o: Fields<M>, m: M, config: map<Key, string>): Fields<M> {
    map k | k in o.Keys + config.Keys && AppliedField(o, m, config, k).Some? :: AppliedField(o, m, config, k).value
  }

  function Apply<M(==)>(o: Fields<M>, m: M, config: map<Key, string>, force: bool): Option<Fields<M>> {
    if !force && Conflicts(o, m, config) then None else Some(Merged(o, m, config))
  }

  // A write that is not an apply: whoever changes a value becomes its only owner.
  function Update<M(==)>(o: Fields<M>, m: M, k: Key, value: string): Fields<M> {
    if k in o && o[k].value == value then o else o[k := Field(value, {m})]
  }

  ghost predicate AllOwned<M>(o: Fields<M>) {
    forall k :: k in o ==> o[k].owners != {}
  }

  // An apply is refused exactly when it is not forced and would change a value that somebody else
  // owns.
  lemma RefusedExactlyWhen<M>(o: Fields<M>, m: M, config: map<Key, string>, force: bool)
    ensures Apply(o, m, config, force).None? <==>
      !force && exists k, n :: k in config && k in o && config[k] != o[k].value && n in o[k].owners && n != m
  {
    if Conflicts(o, m, config) {
      var k :| k in config && k in o && o[k].value != config[k] && o[k].owners - {m} != {};
      var n :| n in o[k].owners - {m};
      assert n in o[k].owners && n != m;
    }
    if k, n :| k in config && k in o && config[k] != o[k].value && n in o[k].owners && n != m {
      assert n in o[k].owners - {m};
    }
  }

  // Otherwise its manager owns exactly the fields it names, and everybody else keeps the fields
  // whose values it left alone; a field lasts as long as it has an owner.
  lemma ApplyOwns<M>(o: Fields<M>, m: M, config: map<Key, string>, force: bool, k: Key)
    requires AllOwned(o) && Apply(o, m, config, force).Some?
    ensures
      var u := Apply(o, m, config, force).value;
      && (forall n :: k in u && n in u[k].owners <==>
            if n == m then k in config
            else k in o && n in o[k].owners && (k in config ==> config[k] == o[k].value))
      && (k in u ==> u[k].value == if k in config then config[k] else o[k].value)
      && AllOwned(u)
  {
    MergeKeepsOwners(o, m, config);
  }

  // Whoever changes a value takes the field from everybody else, and touches no other.
  lemma UpdateOwns<M>(o: Fields<M>, m: M, k: Key, value: string)
    ensures
      var u := Update(o, m, k, value);
      && k in u && u[k].value == value
      && (forall n :: n in u[k].owners <==> if k in o && o[k].value == value then n in o[k].owners else n == m)
      && (forall j :: j != k ==> (j in u <==> j in o) && (j in o ==> u[j] == o[j]))
  {
    if k in o && o[k].value == value {
      assert Update(o, m, k, value) == o;
    }
  }

  lemma MergeKeepsOwners<M>(o: Fields<M>, m: M, config: map<Key, string>)
    requires AllOwned(o)
    ensures AllOwned(Merged(o, m, config))
  {
    forall k | k in Merged(o, m, config) ensures Merged(o, m, config)[k].owners != {} {
      if k in config {
        assert m in Merged(o, m, config)[k].owners;
      } else if m in o[k].owners {
        assert o[k].owners != {m} && o[k].owners == {m} + (o[k].owners - {m});
      } else {
        assert o[k].owners - {m} == o[k].owners;
      }
    }
  }
}

// Who owns a version's drain deadline, whatever the operator and anyone else write in whatever
// order (cleanup.rs, controller.rs, knative.rs).
module DeadlineOwnership {
  import opened Base
  import opened ServerSideApply

  // The operator's field managers that write a version's annotations, and anyone else.
  datatype Manager =
    | Creator
    | PropagateAnnotations
    | DeploymentId
    | DeploymentRegistration
    | RemoveVersionAt
    | Outsider(k: nat)

  const DEADLINE: Key := "restate.dev/remove-version-at"
  const DEPLOYMENT_ID: Key := "restate.dev/deployment-id"
  const REGISTERED_AT: Key := "restate.dev/registered-at"

  // What neither deployment mode copies from the RestateDeployment, and what each adds to that.
  const NOT_PROPAGATED: set<Key> := {
    DEADLINE,
    "restate.dev/reconcile",
    "restate.dev/recreate-update-strategy",
    "kubectl.kubernetes.io/last-applied-configuration"
  }
  const NOT_ON_REPLICASETS: set<Key> := NOT_PROPAGATED + {"restate.dev/tunnel-name"}
  const NOT_ON_CONFIGURATIONS: set<Key> := NOT_PROPAGATED + {"serving.knative.dev/rollout-duration"}

  type Annotations = map<Key, string>

  datatype Change =
    // adopting an existing version
    | Propagate(annotations: Annotations)
    // creating or re-applying a Knative Configuration, both under one manager
    | Reapply(annotations: Annotations, tag: string)
    | RecordId(id: string)
    | Annotate(id: string, registeredAt: string)
    | Stamp(deadline: string)
    | Clear
    | Edit(k: nat, key: Key, value: string)
    | Remove(key: Key)
    | ForeignApply(k: nat, config: Annotations, force: bool)
  {
    predicate ByOperator() {
      Propagate? || Reapply? || RecordId? || Annotate? || Stamp? || Clear?
    }
  }

  // A ReplicaSet as it is created; a Configuration starts from nothing.
  function Created(replicaSet: Option<Annotations>): Fields<Manager> {
    match replicaSet
    case Some(a) => map k | k in a && k !in NOT_ON_REPLICASETS :: Field(a[k], {Creator})
    case None => map[]
  }

  // Every apply of the operator is forced, so none of them can conflict.
  function After(o: Fields<Manager>, c: Change): Fields<Manager> {
    match c
    case Propagate(a) => Merged(o, PropagateAnnotations, a - NOT_ON_REPLICASETS)
    case Reapply(a, tag) => Merged(o, Creator, (a - NOT_ON_CONFIGURATIONS)["restate.dev/tag" := tag])
    case RecordId(id) => Merged(o, DeploymentId, map[DEPLOYMENT_ID := id])
    case Annotate(id, at) => Merged(o, DeploymentRegistration, map[DEPLOYMENT_ID := id, REGISTERED_AT := at])
    case Stamp(t) => Merged(o, RemoveVersionAt, map[DEADLINE := t])
    case Clear => Merged(o, RemoveVersionAt, map[])
    case Edit(k, key, value) => Update(o, Outsider(k), key, value)
    case Remove(key) => o - {key}
    case ForeignApply(k, config, force) =>
      var applied := Apply(o, Outsider(k), config, force);
      if applied.Some? then applied.value else o
  }

  // Exactly what is copied from a RestateDeployment's annotations onto its versions, by creating a
  // ReplicaSet, adopting one and applying a Configuration.
  lemma PropagatedExactly(o: Fields<Manager>, a: Annotations, tag: string, k: Key)
    requires AllOwned(o)
    ensures
      var bookkeeping := [
        "restate.dev/remove-version-at", "restate.dev/reconcile", "restate.dev/recreate-update-strategy",
        "kubectl.kubernetes.io/last-applied-configuration"];
      var created, adopted, applied := Created(Some(a)), After(o, Propagate(a)), After(o, Reapply(a, tag));
      && (k in created <==> k in a && k !in bookkeeping && k != "restate.dev/tunnel-name")
      && (k in created ==> created[k] == Field(a[k], {Creator}))
      && (k in adopted && PropagateAnnotations in adopted[k].owners <==>
            k in a && k !in bookkeeping && k != "restate.dev/tunnel-name")
      && (k in adopted && PropagateAnnotations in adopted[k].owners ==> adopted[k].value == a[k])
      && (k in applied && Creator in applied[k].owners <==>
            k == "restate.dev/tag" || (k in a && k !in bookkeeping && k != "serving.knative.dev/rollout-duration"))
      && (k in applied && Creator in applied[k].owners ==>
            applied[k].value == if k == "restate.dev/tag" then tag else a[k])
  {
    ApplyOwns(o, PropagateAnnotations, a - NOT_ON_REPLICASETS, true, k);
    ApplyOwns(o, Creator, (a - NOT_ON_CONFIGURATIONS)["restate.dev/tag" := tag], true, k);
  }

  // An id that is recorded, and a registration that is noted, are on the object afterwards.
  lemma RegistrationLands(o: Fields<Manager>, id: string, at: string)
    requires AllOwned(o)
    ensures
      var recorded, noted := After(o, RecordId(id)), After(o, Annotate(id, at));
      && DEPLOYMENT_ID in recorded && recorded[DEPLOYMENT_ID].value == id
      && DeploymentId in recorded[DEPLOYMENT_ID].owners
      && DEPLOYMENT_ID in noted && noted[DEPLOYMENT_ID].value == id
      && REGISTERED_AT in noted && noted[REGISTERED_AT].value == at
      && (forall k :: k in [DEPLOYMENT_ID, REGISTERED_AT] ==> DeploymentRegistration in noted[k].owners)
  {
    ApplyOwns(o, DeploymentId, map[DEPLOYMENT_ID := id], true, DEPLOYMENT_ID);
    ApplyOwns(o, DeploymentRegistration, map[DEPLOYMENT_ID := id, REGISTERED_AT := at], true, DEPLOYMENT_ID);
    ApplyOwns(o, DeploymentRegistration, map[DEPLOYMENT_ID := id, REGISTERED_AT := at], true, REGISTERED_AT);
  }

  function History(created: Option<Annotations>, changes: seq<Change>): Fields<Manager>
    decreases |changes|
  {
    if changes == [] then Created(created) else After(History(created, changes[..|changes| - 1]), changes[|changes| - 1])
  }

  // No manager of the operator but the one that stamps owns the deadline.
  ghost predicate OnlyStamperOwns(o: Fields<Manager>) {
    && AllOwned(o)
    && (DEADLINE in o ==> forall m :: m in o[DEADLINE].owners ==> m == RemoveVersionAt || m.Outsider?)
  }

  lemma ChangeKeepsOwnership(o: Fields<Manager>, c: Change)
    requires OnlyStamperOwns(o)
    ensures OnlyStamperOwns(After(o, c))
  {
    match c
    case Propagate(a) => MergeKeepsOwners(o, PropagateAnnotations, a - NOT_ON_REPLICASETS);
    case Reapply(a, tag) => MergeKeepsOwners(o, Creator, (a - NOT_ON_CONFIGURATIONS)["restate.dev/tag" := tag]);
    case RecordId(id) => MergeKeepsOwners(o, DeploymentId, map[DEPLOYMENT_ID := id]);
    case Annotate(id, at) => MergeKeepsOwners(o, DeploymentRegistration, map[DEPLOYMENT_ID := id, REGISTERED_AT := at]);
    case Stamp(t) => MergeKeepsOwners(o, RemoveVersionAt, map[DEADLINE := t]);
    case Clear => MergeKeepsOwners(o, RemoveVersionAt, map[]);
    case ForeignApply(k, config, force) => MergeKeepsOwners(o, Outsider(k), config);
    case _ =>
  }

  lemma {:induction false} HistoryKeepsOwnership(created: Option<Annotations>, changes: seq<Change>)
    ensures OnlyStamperOwns(History(created, changes))
    decreases |changes|
  {
    if changes != [] {
      HistoryKeepsOwnership(created, changes[..|changes| - 1]);
      ChangeKeepsOwnership(History(created, changes[..|changes| - 1]), changes[|changes| - 1]);
    }
  }

  // A clear removes the deadline exactly when nobody outside the operator owns it; otherwise it
  // leaves the value to them. A stamp always lands.
  lemma ClearAndStamp(created: Option<Annotations>, changes: seq<Change>, t: string)
    ensures
      var o := History(created, changes);
      var cleared, stamped := After(o, Clear), After(o, Stamp(t));
      && (DEADLINE in cleared <==> DEADLINE in o && exists m :: m in o[DEADLINE].owners && m.Outsider?)
      && (DEADLINE in cleared ==>
            && cleared[DEADLINE].value == o[DEADLINE].value
            && cleared[DEADLINE].owners == o[DEADLINE].owners - {RemoveVersionAt})
      && DEADLINE in stamped && stamped[DEADLINE].value == t && RemoveVersionAt in stamped[DEADLINE].owners
      // nothing else on the object moves
      && (forall k :: k != DEADLINE && k in o && RemoveVersionAt !in o[k].owners ==>
            k in cleared && cleared[k] == o[k] && k in stamped && stamped[k] == o[k])
  {
    HistoryKeepsOwnership(created, changes);
    var o := History(created, changes);
    hide History;
    if DEADLINE in o {
      var owners := o[DEADLINE].owners;
      if owners == {RemoveVersionAt} {
        assert forall m :: m in owners ==> !m.Outsider?;
      } else {
        var m :| m in owners && m != RemoveVersionAt;
        assert m.Outsider?;
      }
    }
    assert forall k :: k in o && RemoveVersionAt !in o[k].owners ==> o[k].owners - {RemoveVersionAt} == o[k].owners;
  }

  // The deadline the operator means a version to have: its last stamp, unless cleared since.
  function Intended(changes: seq<Change>): Option<string>
    decreases |changes|
  {
    if changes == [] then None
    else
      match changes[|changes| - 1]
      case Stamp(t) => Some(t)
      case Clear => None
      case _ => Intended(changes[..|changes| - 1])
  }

  // While only the operator writes, the deadline is the one it intends, owned by its stamper
  // alone, whatever annotations the user puts on the RestateDeployment.
  lemma {:induction false} DeadlineIsIntended(created: Option<Annotations>, changes: seq<Change>)
    requires forall i :: 0 <= i < |changes| ==> changes[i].ByOperator()
    ensures
      var o := History(created, changes);
      match Intended(changes)
      case Some(t) => DEADLINE in o && o[DEADLINE] == Field(t, {RemoveVersionAt})
      case None => DEADLINE !in o
    decreases |changes|
  {
    if changes != [] {
      var before, c := changes[..|changes| - 1], changes[|changes| - 1];
      DeadlineIsIntended(created, before);
      var o := History(created, before);
      hide History;
      OperatorWrite(o, c);
    }
  }

  lemma OperatorWrite(o: Fields<Manager>, c: Change)
    requires c.ByOperator() && (DEADLINE in o ==> o[DEADLINE].owners == {RemoveVersionAt})
    ensures
      var u := After(o, c);
      match c
      case Stamp(t) => DEADLINE in u && u[DEADLINE] == Field(t, {RemoveVersionAt})
      case Clear => DEADLINE !in u
      case _ => (DEADLINE in u <==> DEADLINE in o) && (DEADLINE in o ==> u[DEADLINE] == o[DEADLINE])
  {
    assert DEADLINE in NOT_ON_REPLICASETS && DEADLINE in NOT_ON_CONFIGURATIONS;
    if DEADLINE in o {
      assert {RemoveVersionAt} + {RemoveVersionAt} == {RemoveVersionAt};
      assert forall m :: m != RemoveVersionAt ==> o[DEADLINE].owners - {m} == o[DEADLINE].owners;
    }
  }

  // Why the deadline is not copied: a copy would belong to a manager the clear cannot give up.
  lemma CopiedDeadlineSurvivesClear(o: Fields<Manager>, t: string)
    ensures
      var copied := Merged(o, PropagateAnnotations, map[DEADLINE := t]);
      DEADLINE in After(copied, Clear) && After(copied, Clear)[DEADLINE].value == t
  {
    var copied := Merged(o, PropagateAnnotations, map[DEADLINE := t]);
    assert PropagateAnnotations in copied[DEADLINE].owners;
    assert copied[DEADLINE].owners != {RemoveVersionAt};
  }
}
