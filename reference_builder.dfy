/** lib/config-builder/reference-builder.js: a reference grants its source
    function an IAM statement on the target and runs the target's deferred
    initializer, if it has one. */
module ReferenceBuilder {
  import opened Wrappers
  import opened ChangeCase
  import opened Manifest
  import opened Descriptors
  import opened OrderedSets
  import opened ActionMapper
  import opened BuilderState
  import opened StorageBuilder
  import opened EventBuilder

  /** The targets a reference can grant access to: a DynamoDB key-value
      storage or an SNS topic event. */
  predicate Grantable(t: RefTarget) {
    (t.kind == KeyValueStorage && t.engine == DynamoDb) || (t.kind == TopicEvent && t.broker == SnsBroker)
  }

  function ServiceOf(t: RefTarget): Service {
    if t.kind == KeyValueStorage then DynamoDbService else SnsService
  }

  /** The statement's `Resource`: the table ARN through the reference's
      environment variable, or `{Ref: <topic id>}`. */
  function ResourceOf(ref: Reference): Value {
    if ref.target.kind == KeyValueStorage then TableArn(ref.id) else Ref(ref.target.id)
  }

  /** The ARN of the table the provider environment names under `refId`. */
  function TableArn(refId: string): Value {
    Text(TableArnPrefix + EnvironmentPrefix + refId + "}")
  }

  const KeyValueTargetRefusal := "Failed to add key-value storage reference: Got unsupported target type "
  const RelationalTargetRefusal :=
    "Failed to add resource reference: The `RelationalStorage` type handler has not yet been implemented"
  const OtherTargetRefusal := "Failed to add resource referece: Got unsupported target type "

  /** The error for a target the builder cannot grant, by kind. */
  function RefusalOf(t: RefTarget): Error {
    match t.kind
    case KeyValueStorage =>
      Error(KeyValueTargetRefusal + t.kind.Name())
    case RelationalStorage =>
      Error(RelationalTargetRefusal)
    case TopicEvent =>
      InvalidBroker(t.broker)
    case _ =>
      Error(OtherTargetRefusal + t.kind.Name())
  }

  /** Runs the initializer registered under the target's id, if any; the
      initializer stays registered. */
  function RunInitializer(cc: CaseFns, app: AppInfo, reg: Registry, ref: Reference): (r: Registry)
    requires ref.sourceId in reg.functions
    ensures r.initializers == reg.initializers
    ensures KeepsBlocks(reg.resources, r.resources)
    ensures r.functions.Keys == reg.functions.Keys
    ensures forall id :: id in reg.functions && id != ref.sourceId ==> r.functions[id] == reg.functions[id]
    ensures Statements(r.functions[ref.sourceId]) == Statements(reg.functions[ref.sourceId])
    ensures r.functions[ref.sourceId].events == reg.functions[ref.sourceId].events
    ensures ref.target.id !in reg.initializers ==> r == reg
    ensures ref.target.id in reg.initializers ==> ref.id in r.functions[ref.sourceId].environment
    ensures ref.target.id in reg.initializers && reg.initializers[ref.target.id].TableInitializer? ==>
      var i := reg.initializers[ref.target.id];
      && r.functions[ref.sourceId].environment ==
         reg.functions[ref.sourceId].environment[ref.id := Text(TableVariable(i.collection))]
      && r.resources == if i.collection in reg.resources then reg.resources
                        else reg.resources[i.collection := TableBlock(ref.id, i.key)]
    ensures ref.target.id in reg.initializers && reg.initializers[ref.target.id].TopicInitializer? ==>
      var i := reg.initializers[ref.target.id];
      && r.functions[ref.sourceId].environment == reg.functions[ref.sourceId].environment[ref.id := Ref(i.topicId)]
      && r.resources == if i.topicId in reg.resources then reg.resources
                        else reg.resources[i.topicId := TopicBlock(cc, app, i.topicId, i.topicName)]
    ensures WellFormed(reg) ==> WellFormed(r)
  {
    if ref.target.id !in reg.initializers then reg
    else
      match reg.initializers[ref.target.id]
      case TableInitializer(collection, key) =>
        RunTableInitializer(reg, collection, key, ref.id, ref.sourceId)
      case TopicInitializer(topicId, topicName) =>
        RunTopicInitializer(cc, app, reg, topicId, topicName, ref.id, ref.sourceId)
  }

  /** Appends `s` to the statements of function `fid`. */
  function PushStatement(fs: map<string, FunctionEntry>, fid: string, s: Statement): (r: map<string, FunctionEntry>)
    requires fid in fs
    ensures r.Keys == fs.Keys
    ensures forall id :: id in fs && id != fid ==> r[id] == fs[id]
    ensures Statements(r[fid]) == Statements(fs[fid]) + [s]
    ensures r[fid].environment == fs[fid].environment && r[fid].events == fs[fid].events
  {
    fs[fid := fs[fid].(iamRoleStatements := Some(Statements(fs[fid]) + [s]))]
  }

  /** Pushing a well-formed statement keeps the registry well formed. */
  lemma PushKeepsWellFormed(reg: Registry, fid: string, s: Statement)
    requires fid in reg.functions
    ensures WellFormed(reg) && WellFormedStatement(s) ==>
      WellFormed(reg.(functions := PushStatement(reg.functions, fid, s)))
  {
    var pushed := reg.(functions := PushStatement(reg.functions, fid, s));
    if WellFormed(reg) && WellFormedStatement(s) {
      forall id | id in pushed.functions
        ensures forall t :: t in Statements(pushed.functions[id]) ==> WellFormedStatement(t)
      {
        if id == fid {
          assert forall t :: t in Statements(pushed.functions[id]) ==> t in Statements(reg.functions[id]) || t == s;
        }
      }
    }
  }

  /** `addReference(connection)`: the target is checked first, then the
      `allows` list, then the source function is read; on success the source
      has one more statement, the target's initializer has run, and the
      initializer is still registered for the next reference. */
  function AddReferenceSpec(cc: CaseFns, app: AppInfo, reg: Registry, ref: Reference): (r: Result<Registry>)
    ensures r.Ok? <==> Grantable(ref.target) && ActionsFor(ServiceOf(ref.target), ref.allows).Ok?
                       && ref.sourceId in reg.functions
    ensures !Grantable(ref.target) ==> r == Err(RefusalOf(ref.target))
    ensures Grantable(ref.target) && ActionsFor(ServiceOf(ref.target), ref.allows).Err? ==>
      r == Err(ActionsFor(ServiceOf(ref.target), ref.allows).error)
    ensures Grantable(ref.target) && ActionsFor(ServiceOf(ref.target), ref.allows).Ok? && ref.sourceId !in reg.functions ==>
      r == Err(TypeError("iamRoleStatements"))
    ensures r.Ok? ==> r.value.functions.Keys == reg.functions.Keys
    ensures r.Ok? ==>
      (Statements(r.value.functions[ref.sourceId]) ==
       Statements(reg.functions[ref.sourceId])
       + [Statement("Allow", ActionsFor(ServiceOf(ref.target), ref.allows).value, ResourceOf(ref))])
    ensures r.Ok? ==> forall id :: id in reg.functions && id != ref.sourceId ==> r.value.functions[id] == reg.functions[id]
    ensures r.Ok? ==> r.value.initializers == reg.initializers && KeepsBlocks(reg.resources, r.value.resources)
    ensures r.Ok? ==>
      var s := Statement("Allow", ActionsFor(ServiceOf(ref.target), ref.allows).value, ResourceOf(ref));
      r.value == RunInitializer(cc, app, reg.(functions := PushStatement(reg.functions, ref.sourceId, s)), ref)
    ensures r.Ok? && WellFormed(reg) ==> WellFormed(r.value)
  {
    if !Grantable(ref.target) then Err(RefusalOf(ref.target))
    else
      match ActionsFor(ServiceOf(ref.target), ref.allows)
      case Err(e) => Err(e)
      case Ok(actions) =>
        if ref.sourceId !in reg.functions then Err(TypeError("iamRoleStatements"))
        else
          var s := Statement("Allow", actions, ResourceOf(ref));
          var pushed := reg.(functions := PushStatement(reg.functions, ref.sourceId, s));
          PushKeepsWellFormed(reg, ref.sourceId, s);
          Ok(RunInitializer(cc, app, pushed, ref))
  }

  /** Running an initializer a second time for the same reference changes
      nothing more: the binding is rewritten with the same value and the
      block already exists. */
  lemma InitializerIdempotent(cc: CaseFns, app: AppInfo, reg: Registry, ref: Reference)
    requires ref.sourceId in reg.functions
    ensures RunInitializer(cc, app, RunInitializer(cc, app, reg, ref), ref) == RunInitializer(cc, app, reg, ref)
  {
    var once := RunInitializer(cc, app, reg, ref);
    if ref.target.id in reg.initializers {
      var f := once.functions[ref.sourceId];
      match reg.initializers[ref.target.id]
      case TableInitializer(collection, key) =>
        assert f.environment[ref.id := Text(TableVariable(collection))] == f.environment;
      case TopicInitializer(topicId, topicName) =>
        assert f.environment[ref.id := Ref(topicId)] == f.environment;
    }
  }

  /** Two references from different functions to one DynamoDB storage: the
      table block is created once, named after the first reference, and each
      function gets its own binding to the table. */
  lemma SharedTableCreatedOnce(cc: CaseFns, app: AppInfo, reg: Registry, r1: Reference, r2: Reference,
                               collection: string, key: KeyDef)
    requires r1.target == r2.target && r1.target.kind == KeyValueStorage
    requires r1.target.id in reg.initializers && reg.initializers[r1.target.id] == TableInitializer(collection, key)
    requires collection !in reg.resources
    requires r1.sourceId != r2.sourceId
    requires AddReferenceSpec(cc, app, reg, r1).Ok?
    requires AddReferenceSpec(cc, app, AddReferenceSpec(cc, app, reg, r1).value, r2).Ok?
    ensures var after := AddReferenceSpec(cc, app, AddReferenceSpec(cc, app, reg, r1).value, r2).value;
            after.resources == reg.resources[collection := TableBlock(r1.id, key)]
            && after.functions[r1.sourceId].environment[r1.id] == Text(TableVariable(collection))
            && after.functions[r2.sourceId].environment[r2.id] == Text(TableVariable(collection))
  {
    var mid := AddReferenceSpec(cc, app, reg, r1).value;
    var s1 := Statement("Allow", ActionsFor(ServiceOf(r1.target), r1.allows).value, ResourceOf(r1));
    var pushed1 := reg.(functions := PushStatement(reg.functions, r1.sourceId, s1));
    assert mid == RunTableInitializer(pushed1, collection, key, r1.id, r1.sourceId);
    assert mid.resources == reg.resources[collection := TableBlock(r1.id, key)];
    var s2 := Statement("Allow", ActionsFor(ServiceOf(r2.target), r2.allows).value, ResourceOf(r2));
    var pushed2 := mid.(functions := PushStatement(mid.functions, r2.sourceId, s2));
    var after := AddReferenceSpec(cc, app, mid, r2).value;
    assert after == RunTableInitializer(pushed2, collection, key, r2.id, r2.sourceId);
  }
}
