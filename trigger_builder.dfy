/** lib/config-builder/trigger-builder.js: a trigger appends one event to
    the target function's `events` list. */
module TriggerBuilder {
  import opened Wrappers
  import opened ChangeCase
  import opened Manifest
  import opened Descriptors
  import opened Common
  import opened BuilderState
  import opened EventBuilder

  /** `request.parameters.paths`: every named path parameter, marked
      required. */
  function PathParams(params: seq<string>): (r: map<string, bool>)
    ensures forall k :: k in r <==> k in params
    ensures forall k :: k in r ==> r[k]
    decreases |params|
  {
    if |params| == 0 then map[]
    else
      var init := params[..|params| - 1];
      assert forall k :: k in params <==> k in init || k == params[|params| - 1];
      PathParams(init)[params[|params| - 1] := true]
  }

  /** The refusal of a trigger that is neither HTTP nor a topic. */
  function UnsupportedEventType(kind: ResourceType): Error {
    Error("Got unsupported event type: " + kind.Name())
  }

  /** The event a trigger source becomes: an HTTP event with CORS on (and
      its path parameters when it has any), or an SNS event referring to the
      topic block by id with the generated topic name. */
  function TriggerEvent(cc: CaseFns, app: AppInfo, source: TriggerSource): (r: Result<Event>)
    ensures r.Ok? <==> source.kind == HttpEvent || source.kind == TopicEvent
    ensures r.Err? ==> r.error == UnsupportedEventType(source.kind)
    ensures source.kind == HttpEvent ==>
      r.value.Http? && r.value.path == source.path && r.value.httpMethod == source.httpMethod && r.value.cors
      && (r.value.pathParams.Some? <==> |source.params| > 0)
      && (r.value.pathParams.Some? ==> r.value.pathParams.value == PathParams(source.params))
    ensures source.kind == TopicEvent ==> r.value.Sns? && r.value.arn == Ref(source.id)
  {
    match source.kind
    case HttpEvent =>
      Ok(Http(source.path, source.httpMethod, true,
              if |source.params| > 0 then Some(PathParams(source.params)) else None))
    case TopicEvent =>
      Ok(Sns(Ref(source.id), GenerateTopicName(cc, app.name, app.stage, source.name)))
    case _ => Err(UnsupportedEventType(source.kind))
  }

  /** `addTrigger(connection)`: the event goes at the end of the target's
      events; nothing else changes. The source's type is checked before the
      target is read, and a missing target fails on `events`. */
  function AddTriggerSpec(cc: CaseFns, app: AppInfo, reg: Registry, t: Trigger): (r: Result<Registry>)
    ensures r.Ok? <==> TriggerEvent(cc, app, t.source).Ok? && t.targetId in reg.functions
    ensures TriggerEvent(cc, app, t.source).Err? ==> r == Err(TriggerEvent(cc, app, t.source).error)
    ensures TriggerEvent(cc, app, t.source).Ok? && t.targetId !in reg.functions ==> r == Err(TypeError("events"))
    ensures r.Ok? ==> r.value.resources == reg.resources && r.value.initializers == reg.initializers
    ensures r.Ok? ==> r.value.functions.Keys == reg.functions.Keys
    ensures r.Ok? ==> forall id :: id in reg.functions && id != t.targetId ==> r.value.functions[id] == reg.functions[id]
    ensures r.Ok? ==> var f := reg.functions[t.targetId];
                      r.value.functions[t.targetId] == f.(events := f.events + [TriggerEvent(cc, app, t.source).value])
    ensures r.Ok? && WellFormed(reg) ==> WellFormed(r.value)
  {
    match TriggerEvent(cc, app, t.source)
    case Err(e) => Err(e)
    case Ok(ev) =>
      if t.targetId !in reg.functions then Err(TypeError("events"))
      else
        var f := reg.functions[t.targetId];
        Ok(reg.(functions := reg.functions[t.targetId := f.(events := f.events + [ev])]))
  }

  /** The topic trigger and the topic block agree: the trigger's ARN refers
      to the block the event's initializer creates under the event id, and
      both carry the same topic name. */
  lemma TopicTriggerMatchesBlock(cc: CaseFns, app: AppInfo, source: TriggerSource)
    requires source.kind == TopicEvent
    ensures TriggerEvent(cc, app, source) ==
            Ok(Sns(Ref(source.id), TopicBlock(cc, app, source.id, source.name).topicName))
  {
  }
}
