/** lib/config.js: the earlier configuration object. Unlike the builder of
    lib/config-builder/, it reads triggers with the compute resource, keeps
    table variables in the provider's environment, and runs each pending
    table initializer at most once. */
module LegacyConfig {
  import opened Wrappers
  import opened ChangeCase
  import opened Manifest
  import opened Descriptors
  import opened ActionMapper
  import ReferenceBuilder
  import StorageBuilder
  import TriggerBuilder

  /** A trigger listed on a compute resource. */
  datatype LegacyTrigger = LegacyTrigger(id: string, kind: ResourceType, path: string, httpMethod: string)

  datatype LegacyCompute = LegacyCompute(
    id: string, runtime: string, description: Option<string>,
    environment: map<string, Value>, tags: map<string, string>, triggers: seq<LegacyTrigger>)

  /** A table with its primary columns (name and attribute type). */
  datatype LegacyTable = LegacyTable(name: string, primaries: seq<KeyDef>)

  /** A storage resource; `storageType` is the engine text ('dynamo-db'). */
  datatype LegacyStorage = LegacyStorage(id: string, storageType: string, tables: seq<LegacyTable>)

  /** A connection from compute `sourceId` to storage `targetId`. */
  datatype Connection = Connection(id: string, sourceId: string, targetId: string, allows: seq<Action>)

  /** The mutable parts of the configuration. A pending initializer holds
      the table it captured; `None` stands for the `undefined` captured from
      an empty table list. */
  datatype LegacyState = LegacyState(
    environment: map<string, string>,
    functions: map<string, FunctionEntry>,
    resources: map<string, CfnResource>,
    pending: map<string, Option<LegacyTable>>)

  /** The result of an operation that may throw after changing state. */
  datatype LegacyStep = LegacyStep(next: LegacyState, thrown: Option<Error>)

  /** `triggers.map(...)`: each HTTP trigger becomes a named HTTP event; the
      first other trigger throws. */
  function LegacyEvents(triggers: seq<LegacyTrigger>): (r: Result<seq<Event>>)
    ensures r.Ok? <==> forall i :: 0 <= i < |triggers| ==> triggers[i].kind == HttpEvent
    ensures r.Ok? ==> |r.value| == |triggers|
    ensures r.Ok? ==> forall i :: 0 <= i < |triggers| ==>
                        r.value[i] == NamedHttp(triggers[i].id, triggers[i].path, triggers[i].httpMethod)
    ensures r.Err? ==> exists i :: 0 <= i < |triggers| && triggers[i].kind != HttpEvent
                                   && r.error == TriggerBuilder.UnsupportedEventType(triggers[i].kind)
                                   && forall j :: 0 <= j < i ==> triggers[j].kind == HttpEvent
    decreases |triggers|
  {
    if |triggers| == 0 then Ok([])
    else
      var t := triggers[0];
      if t.kind != HttpEvent then Err(TriggerBuilder.UnsupportedEventType(t.kind))
      else
        var rest := triggers[1..];
        assert forall i :: 0 <= i < |rest| ==> rest[i] == triggers[i + 1];
        match LegacyEvents(rest)
        case Err(e) => Err(e)
        case Ok(events) => Ok([NamedHttp(t.id, t.path, t.httpMethod)] + events)
  }

  /** `addCompute(resource)`: every runtime gets the node-style handler; the
      entry is written only when all triggers are HTTP. */
  function LegacyAddComputeSpec(cc: CaseFns, st: LegacyState, c: LegacyCompute): (r: Result<LegacyState>)
    ensures r.Ok? <==> LegacyEvents(c.triggers).Ok?
    ensures r.Err? ==> r.error == LegacyEvents(c.triggers).error
    ensures r.Ok? ==> c.id in r.value.functions && r.value == st.(functions := st.functions[c.id := r.value.functions[c.id]])
    ensures r.Ok? ==> r.value.functions[c.id].handler == "handler.on" + cc.pascal(c.id)
    ensures r.Ok? ==> r.value.functions[c.id].events == LegacyEvents(c.triggers).value
    ensures r.Ok? ==>
      var e := r.value.functions[c.id];
      && e.name == c.id + "-${self:provider.stage}"
      && e.description == (if c.description.Some? then c.description.value else "")
      && e.runtime == c.runtime && e.environment == c.environment && e.tags == c.tags
      && e.iamRoleStatements.None?
  {
    match LegacyEvents(c.triggers)
    case Err(e) => Err(e)
    case Ok(events) =>
      var entry := FunctionEntry(
        "handler.on" + cc.pascal(c.id), c.id + "-${self:provider.stage}",
        if c.description.Some? then c.description.value else "",
        c.runtime, c.environment, c.tags, events, None);
      Ok(st.(functions := st.functions[c.id := entry]))
  }

  /** The refusal of a storage type other than DynamoDB. */
  function UnsupportedStorage(storageType: string): Error {
    Error(StorageBuilder.UnsupportedTypeText + storageType)
  }

  const OneTableOnlyText := "Failed to add storage resource: you can only have one table for a DynamoDB resource"

  /** The refusal of a DynamoDB storage with several tables. */
  function OneTableOnly(): Error {
    Error(OneTableOnlyText)
  }

  /** `addStorage(resource)`: a DynamoDB storage with at most one table
      leaves an initializer for its first table (or for `undefined`). */
  function LegacyAddStorageSpec(st: LegacyState, s: LegacyStorage): (r: Result<LegacyState>)
    ensures r.Ok? <==> s.storageType == "dynamo-db" && |s.tables| <= 1
    ensures s.storageType != "dynamo-db" ==>
      r == Err(UnsupportedStorage(s.storageType))
    ensures s.storageType == "dynamo-db" && |s.tables| > 1 ==>
      r == Err(OneTableOnly())
    ensures r.Ok? ==> r.value.environment == st.environment && r.value.functions == st.functions
                      && r.value.resources == st.resources
    ensures r.Ok? ==> r.value.pending == st.pending[s.id := if |s.tables| == 1 then Some(s.tables[0]) else None]
  {
    if s.storageType == "dynamo-db" then
      if |s.tables| > 1 then
        Err(OneTableOnly())
      else
        Ok(st.(pending := st.pending[s.id := if |s.tables| == 1 then Some(s.tables[0]) else None]))
    else Err(UnsupportedStorage(s.storageType))
  }

  /** The DynamoDB mapper of this file: the same grants, but its error
      message reads the undeclared name `a`, so an unknown action throws a
      ReferenceError. */
  function LegacyActions(allows: seq<Action>): (r: Result<seq<IamAction>>)
    ensures r.Ok? ==> r == ActionsFor(DynamoDbService, allows)
    ensures r.Err? <==> ActionsFor(DynamoDbService, allows).Err?
    ensures r.Err? ==> r.error == ReferenceError("a")
  {
    match ActionsFor(DynamoDbService, allows)
    case Ok(actions) => Ok(actions)
    case Err(_) => Err(ReferenceError("a"))
  }

  /** The table block of a table, named after the connection. */
  function LegacyTableBlock(connectionId: string, t: LegacyTable): (r: CfnResource)
    ensures r.Table? && |r.attributeDefinitions| == |t.primaries| && |r.keySchema| == |t.primaries|
    ensures forall i :: 0 <= i < |t.primaries| ==>
      r.attributeDefinitions[i] == AttributeDefinition(t.primaries[i].name, t.primaries[i].keyType)
      && r.keySchema[i] == KeySchemaElement(t.primaries[i].name, "HASH")
  {
    Table(EnvironmentPrefix + connectionId + "}", PayPerRequest,
          seq(|t.primaries|, i requires 0 <= i < |t.primaries| =>
                AttributeDefinition(t.primaries[i].name, t.primaries[i].keyType)),
          seq(|t.primaries|, i requires 0 <= i < |t.primaries| =>
                KeySchemaElement(t.primaries[i].name, "HASH")))
  }

  /** `addConnection(resource)`: push the statement on the source, then run
      and discard the target's pending initializer. The initializer writes
      the provider environment and the table block unconditionally. When
      the captured table is `undefined`, reading its name throws after the
      statement was pushed, and the initializer stays pending. */
  function LegacyAddConnectionSpec(st: LegacyState, conn: Connection): LegacyStep
  {
    match LegacyActions(conn.allows)
    case Err(e) => LegacyStep(st, Some(e))
    case Ok(actions) =>
      if conn.sourceId !in st.functions then LegacyStep(st, Some(TypeError("iamRoleStatements")))
      else
        var resource := ReferenceBuilder.TableArn(conn.id);
        var pushed := st.(functions := ReferenceBuilder.PushStatement(
                            st.functions, conn.sourceId, Statement("Allow", actions, resource)));
        if conn.targetId !in st.pending then LegacyStep(pushed, None)
        else
          match st.pending[conn.targetId]
          case None => LegacyStep(pushed, Some(TypeError("name")))
          case Some(t) =>
            LegacyStep(
              pushed.(environment := st.environment[conn.id := StorageBuilder.TableVariable(t.name)],
                      resources := st.resources[t.name := LegacyTableBlock(conn.id, t)],
                      pending := st.pending - {conn.targetId}),
              None)
  }

  /** A connection succeeds exactly when its actions are known, its source
      is a function and its target's initializer did not capture
      `undefined`; the first two failures leave the state as it was. */
  lemma LegacyAddConnectionOutcome(st: LegacyState, conn: Connection)
    ensures var r := LegacyAddConnectionSpec(st, conn);
      r.thrown.None? <==>
      LegacyActions(conn.allows).Ok? && conn.sourceId in st.functions
      && (conn.targetId in st.pending ==> st.pending[conn.targetId].Some?)
    ensures LegacyActions(conn.allows).Err? ==>
      LegacyAddConnectionSpec(st, conn) == LegacyStep(st, Some(ReferenceError("a")))
    ensures LegacyActions(conn.allows).Ok? && conn.sourceId !in st.functions ==>
      LegacyAddConnectionSpec(st, conn) == LegacyStep(st, Some(TypeError("iamRoleStatements")))
  {
  }

  /** On a known source, a connection with known actions pushes the
      statement the new builder writes for a DynamoDB reference, even when
      its initializer then throws. */
  lemma LegacyAddConnectionStatement(st: LegacyState, conn: Connection)
    requires LegacyActions(conn.allows).Ok? && conn.sourceId in st.functions
    ensures var r := LegacyAddConnectionSpec(st, conn);
      conn.sourceId in r.next.functions
      && Statements(r.next.functions[conn.sourceId]) ==
         Statements(st.functions[conn.sourceId])
         + [Statement("Allow", LegacyActions(conn.allows).value, ReferenceBuilder.ResourceOf(
              Reference(conn.id, conn.sourceId, RefTarget(conn.targetId, KeyValueStorage, DynamoDb, SnsBroker), conn.allows)))]
  {
    var actions := LegacyActions(conn.allows).value;
    var statement := Statement("Allow", actions, ReferenceBuilder.TableArn(conn.id));
    assert LegacyAddConnectionSpec(st, conn).next.functions
           == ReferenceBuilder.PushStatement(st.functions, conn.sourceId, statement);
  }

  /** A successful run of the target's initializer clears it and writes the
      provider environment and the table block; nothing else changes
      those. */
  lemma LegacyAddConnectionInitializer(st: LegacyState, conn: Connection)
    ensures var r := LegacyAddConnectionSpec(st, conn);
      r.thrown.None? && conn.targetId in st.pending ==>
      var t := st.pending[conn.targetId].value;
      r.next.pending == st.pending - {conn.targetId}
      && r.next.environment == st.environment[conn.id := StorageBuilder.TableVariable(t.name)]
      && r.next.resources == st.resources[t.name := LegacyTableBlock(conn.id, t)]
    ensures var r := LegacyAddConnectionSpec(st, conn);
      r.thrown.None? && conn.targetId !in st.pending ==>
      r.next.pending == st.pending && r.next.environment == st.environment && r.next.resources == st.resources
    ensures var r := LegacyAddConnectionSpec(st, conn);
      r.thrown == Some(TypeError("name")) ==>
      r.next.pending == st.pending && r.next.environment == st.environment && r.next.resources == st.resources
  {
    var r := LegacyAddConnectionSpec(st, conn);
    if LegacyActions(conn.allows).Ok? && conn.sourceId in st.functions {
      var statement := Statement("Allow", LegacyActions(conn.allows).value, ReferenceBuilder.TableArn(conn.id));
      var pushed := st.(functions := ReferenceBuilder.PushStatement(st.functions, conn.sourceId, statement));
      if conn.targetId in st.pending && st.pending[conn.targetId].Some? {
        var t := st.pending[conn.targetId].value;
        assert r.next == pushed.(environment := st.environment[conn.id := StorageBuilder.TableVariable(t.name)],
                                 resources := st.resources[t.name := LegacyTableBlock(conn.id, t)],
                                 pending := st.pending - {conn.targetId});
      } else {
        assert r.next == pushed;
      }
    }
  }

  /** A pending initializer runs once: after a connection has consumed it, a
      second connection to the same storage only adds its statement; the
      table block and the provider environment stay as the first connection
      left them. */
  lemma InitializerRunsOnce(st: LegacyState, c1: Connection, c2: Connection)
    requires c1.targetId == c2.targetId && c1.targetId in st.pending
    requires LegacyAddConnectionSpec(st, c1).thrown.None?
    requires LegacyAddConnectionSpec(LegacyAddConnectionSpec(st, c1).next, c2).thrown.None?
    ensures var mid := LegacyAddConnectionSpec(st, c1).next;
            var after := LegacyAddConnectionSpec(mid, c2).next;
            c1.targetId !in after.pending && after.resources == mid.resources && after.environment == mid.environment
  {
    LegacyAddConnectionInitializer(st, c1);
    LegacyAddConnectionInitializer(LegacyAddConnectionSpec(st, c1).next, c2);
  }

  /** A DynamoDB storage declared with no table is accepted, but the first
      connection to it throws when its initializer reads the table's name,
      after the connection's statement has already been pushed. */
  lemma EmptyTablesFailLate(st: LegacyState, s: LegacyStorage, conn: Connection)
    requires s.storageType == "dynamo-db" && s.tables == []
    requires conn.targetId == s.id && conn.sourceId in st.functions
    requires ActionsFor(DynamoDbService, conn.allows).Ok?
    ensures LegacyAddStorageSpec(st, s).Ok?
    ensures var r := LegacyAddConnectionSpec(LegacyAddStorageSpec(st, s).value, conn);
            r.thrown == Some(TypeError("name"))
            && |Statements(r.next.functions[conn.sourceId])| == |Statements(st.functions[conn.sourceId])| + 1
  {
    var st1 := st.(pending := st.pending[s.id := None]);
    assert LegacyAddStorageSpec(st, s) == Ok(st1);
    var actions := LegacyActions(conn.allows).value;
    var pushed := st1.(functions := ReferenceBuilder.PushStatement(
                         st1.functions, conn.sourceId, Statement("Allow", actions, ReferenceBuilder.TableArn(conn.id))));
    assert LegacyAddConnectionSpec(st1, conn) == LegacyStep(pushed, Some(TypeError("name")));
  }

  /** The earlier configuration object. */
  class Configuration {
    const cc: CaseFns
    const serviceName: string
    const stage: string
    const region: Option<string>
    var environment: map<string, string>
    var functions: map<string, FunctionEntry>
    var resources: map<string, CfnResource>
    var pending: map<string, Option<LegacyTable>>

    function State(): LegacyState
      reads this
    {
      LegacyState(environment, functions, resources, pending)
    }

    /** `configuration(app)`: an absent or empty stage becomes 'dev', and
        every table starts empty. */
    constructor(cc: CaseFns, appName: string, appStage: string, appRegion: Option<string>)
      ensures this.cc == cc && serviceName == appName && region == appRegion
      ensures stage == (if appStage == "" then "dev" else appStage)
      ensures State() == LegacyState(map[], map[], map[], map[])
    {
      this.cc := cc;
      serviceName := appName;
      stage := if appStage == "" then "dev" else appStage;
      region := appRegion;
      environment := map[];
      functions := map[];
      resources := map[];
      pending := map[];
    }

    method AddCompute(c: LegacyCompute) returns (outcome: Outcome)
      modifies this
      ensures match LegacyAddComputeSpec(cc, old(State()), c)
              case Ok(next) => outcome == Pass && State() == next
              case Err(e) => outcome == Fail(e) && State() == old(State())
    {
      var events := LegacyEvents(c.triggers);
      if events.Err? {
        return Fail(events.error);
      }
      functions := functions[c.id := FunctionEntry(
        "handler.on" + cc.pascal(c.id), c.id + "-${self:provider.stage}",
        if c.description.Some? then c.description.value else "",
        c.runtime, c.environment, c.tags, events.value, None)];
      outcome := Pass;
    }

    method AddStorage(s: LegacyStorage) returns (outcome: Outcome)
      modifies this
      ensures match LegacyAddStorageSpec(old(State()), s)
              case Ok(next) => outcome == Pass && State() == next
              case Err(e) => outcome == Fail(e) && State() == old(State())
    {
      if s.storageType != "dynamo-db" {
        return Fail(UnsupportedStorage(s.storageType));
      }
      if |s.tables| > 1 {
        return Fail(OneTableOnly());
      }
      pending := pending[s.id := if |s.tables| == 1 then Some(s.tables[0]) else None];
      outcome := Pass;
    }

    method AddConnection(conn: Connection) returns (outcome: Outcome)
      modifies this
      ensures var r := LegacyAddConnectionSpec(old(State()), conn);
              State() == r.next && outcome == (if r.thrown.Some? then Fail(r.thrown.value) else Pass)
    {
      ghost var st := State();
      ghost var r := LegacyAddConnectionSpec(st, conn);
      var actions := LegacyActions(conn.allows);
      if actions.Err? {
        assert r == LegacyStep(st, Some(actions.error));
        return Fail(actions.error);
      }
      if conn.sourceId !in functions {
        assert r == LegacyStep(st, Some(TypeError("iamRoleStatements")));
        return Fail(TypeError("iamRoleStatements"));
      }
      var resource := ReferenceBuilder.TableArn(conn.id);
      functions := ReferenceBuilder.PushStatement(functions, conn.sourceId, Statement("Allow", actions.value, resource));
      ghost var pushed := st.(functions := functions);
      if conn.targetId in pending {
        var captured := pending[conn.targetId];
        if captured.None? {
          assert r == LegacyStep(pushed, Some(TypeError("name")));
          return Fail(TypeError("name"));
        }
        var t := captured.value;
        environment := environment[conn.id := StorageBuilder.TableVariable(t.name)];
        resources := resources[t.name := LegacyTableBlock(conn.id, t)];
        pending := pending - {conn.targetId};
      }
      outcome := Pass;
    }
  }
}
