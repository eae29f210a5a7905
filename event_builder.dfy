/** lib/config-builder/event-builder.js: an SNS topic event leaves a topic
    initializer behind; HTTP events need nothing here. */
module EventBuilder {
  import opened Wrappers
  import opened ChangeCase
  import opened Manifest
  import opened Descriptors
  import opened Common
  import opened BuilderState

  const InvalidBrokerText := "Failed to add internal event: The broker "

  /** The refusal of a topic event on a broker other than SNS. */
  function InvalidBroker(b: Broker): Error {
    Error(InvalidBrokerText + b.Name() + " is invalid.")
  }

  /** `addEvent(resource)`. The error branch for an unknown type builds its
      message from `event`, a name not declared in that scope, so it throws
      a ReferenceError instead of the intended Error. */
  function AddEventSpec(reg: Registry, e: EventResource): (r: Result<Registry>)
    ensures r.Ok? <==> e.kind == HttpEvent || (e.kind == TopicEvent && e.broker == SnsBroker)
    ensures e.kind == HttpEvent ==> r == Ok(reg)
    ensures e.kind == TopicEvent && e.broker != SnsBroker ==>
      r == Err(InvalidBroker(e.broker))
    ensures e.kind != TopicEvent && e.kind != HttpEvent ==> r == Err(ReferenceError("event"))
    ensures r.Ok? ==> r.value.functions == reg.functions && r.value.resources == reg.resources
    ensures r.Ok? && e.kind == TopicEvent ==>
      r.value.initializers == reg.initializers[e.id := TopicInitializer(e.id, e.name)]
  {
    match e.kind
    case TopicEvent =>
      if e.broker == SnsBroker then Ok(reg.(initializers := reg.initializers[e.id := TopicInitializer(e.id, e.name)]))
      else Err(InvalidBroker(e.broker))
    case HttpEvent => Ok(reg)
    case _ => Err(ReferenceError("event"))
  }

  /** The topic block: its display name from the event id, its topic name
      from the application and the event's name, as the topic trigger
      computes it. */
  function TopicBlock(cc: CaseFns, app: AppInfo, topicId: string, topicName: string): CfnResource {
    Topic(ServicePrefix + topicId + StageSuffix,
          GenerateTopicName(cc, app.name, app.stage, topicName))
  }

  /** Running a topic initializer for reference `refId` from function
      `sourceId`: binds `refId` to `{Ref: topicId}` in that function's
      environment and creates the topic block under the event's id unless a
      block is already there. */
  function RunTopicInitializer(cc: CaseFns, app: AppInfo, reg: Registry, topicId: string, topicName: string,
                               refId: string, sourceId: string): (r: Registry)
    requires sourceId in reg.functions
    ensures r.functions == SetEnvironment(reg.functions, sourceId, refId, Ref(topicId))
    ensures r.initializers == reg.initializers
    ensures KeepsBlocks(reg.resources, r.resources)
    ensures r.resources.Keys == reg.resources.Keys + {topicId}
    ensures topicId !in reg.resources ==> r.resources[topicId] == TopicBlock(cc, app, topicId, topicName)
    ensures r.resources == if topicId in reg.resources then reg.resources
                           else reg.resources[topicId := TopicBlock(cc, app, topicId, topicName)]
    ensures WellFormed(reg) ==> WellFormed(r)
  {
    var fs := SetEnvironment(reg.functions, sourceId, refId, Ref(topicId));
    if topicId in reg.resources then reg.(functions := fs)
    else reg.(functions := fs, resources := reg.resources[topicId := TopicBlock(cc, app, topicId, topicName)])
  }
}
