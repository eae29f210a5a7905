/** lib/config-builder/compute-builder.js: a compute resource becomes a
    function entry with no events yet. */
module ComputeBuilder {
  import opened Wrappers
  import opened Strings
  import opened ChangeCase
  import opened Manifest
  import opened Descriptors
  import opened BuilderState

  const UnsupportedRuntimeText := "Failed to add compute: The runtime "

  /** The refusal of a runtime that is neither node nor python. */
  function UnsupportedRuntime(runtime: string): Error {
    Error(UnsupportedRuntimeText + runtime + " is not supported")
  }

  /** The handler the entry names: node runtimes export `on<PascalId>`,
      python runtimes `<snake_id>_endpoint`, from the `handler` module; any
      other runtime is refused. A runtime naming both is taken as node. */
  function HandlerFor(cc: CaseFns, id: string, runtime: string): Result<string> {
    if Contains(runtime, "node") then Ok("handler.on" + cc.pascal(id))
    else if Contains(runtime, "python") then Ok("handler." + cc.snake(id) + "_endpoint")
    else Err(UnsupportedRuntime(runtime))
  }

  /** The entry of a compute resource: its stage-qualified name, the
      description or '', copies of its environment and tags, no events and no
      IAM statements. */
  function NewEntry(c: ComputeResource, handler: string): FunctionEntry {
    FunctionEntry(
      handler, c.id + "-${self:provider.stage}",
      if c.description.Some? then c.description.value else "",
      c.runtime, c.environment, c.tags, [], None)
  }

  /** `addCompute(resource)`: writes (or overwrites) the entry under the
      resource's id, and nothing else. */
  function AddComputeSpec(cc: CaseFns, reg: Registry, c: ComputeResource): (r: Result<Registry>)
    ensures r.Ok? <==> Contains(c.runtime, "node") || Contains(c.runtime, "python")
    ensures r.Err? ==> r.error == UnsupportedRuntime(c.runtime)
    ensures r.Ok? ==> r.value.resources == reg.resources && r.value.initializers == reg.initializers
    ensures r.Ok? ==> r.value.functions.Keys == reg.functions.Keys + {c.id}
    ensures r.Ok? ==> forall id :: id in reg.functions && id != c.id ==> r.value.functions[id] == reg.functions[id]
    ensures r.Ok? ==> r.value.functions[c.id].events == [] && Statements(r.value.functions[c.id]) == []
    ensures r.Ok? ==> r.value.functions[c.id].environment == c.environment
    ensures r.Ok? && Contains(c.runtime, "node") ==> r.value.functions[c.id].handler == "handler.on" + cc.pascal(c.id)
    ensures r.Ok? && !Contains(c.runtime, "node") ==>
      r.value.functions[c.id].handler == "handler." + cc.snake(c.id) + "_endpoint"
    ensures r.Ok? ==>
      var e := r.value.functions[c.id];
      && e.name == c.id + "-${self:provider.stage}"
      && e.description == (if c.description.Some? then c.description.value else "")
      && e.runtime == c.runtime && e.tags == c.tags
    ensures r.Ok? && WellFormed(reg) ==> WellFormed(r.value)
  {
    match HandlerFor(cc, c.id, c.runtime)
    case Err(e) => Err(e)
    case Ok(h) => Ok(reg.(functions := reg.functions[c.id := NewEntry(c, h)]))
  }

  /** A node compute's handler names the module `handler` and the export
      `on` followed by the PascalCase id. */
  lemma NodeHandler(cc: CaseFns, id: string, runtime: string)
    requires Contains(runtime, "node")
    ensures HandlerFor(cc, id, runtime).Ok?
    ensures StartsWith(HandlerFor(cc, id, runtime).value, "handler.on")
    ensures HandlerFor(cc, id, runtime).value[|"handler."|..] == "on" + cc.pascal(id)
  {
    var h := "handler.on" + cc.pascal(id);
    assert h == "handler." + ("on" + cc.pascal(id));
    assert h[..|"handler.on"|] == "handler.on";
  }

  /** A python compute (whose runtime does not mention node) names the
      export `<snake_id>_endpoint` of the module `handler`. */
  lemma PythonHandler(cc: CaseFns, id: string, runtime: string)
    requires !Contains(runtime, "node") && Contains(runtime, "python")
    ensures HandlerFor(cc, id, runtime).Ok?
    ensures HandlerFor(cc, id, runtime).value[|"handler."|..] == cc.snake(id) + "_endpoint"
  {
    var h := "handler." + cc.snake(id) + "_endpoint";
    assert h == "handler." + (cc.snake(id) + "_endpoint");
  }
}
