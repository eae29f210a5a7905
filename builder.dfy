/** lib/config-builder/builder.js: the configuration builder. It defaults
    the application's stage, fixes the provider section at creation, and
    gathers function entries, CloudFormation blocks and deferred
    initializers through the five builder parts until `build` assembles the
    manifest. */
module Builder {
  import opened Wrappers
  import opened ChangeCase
  import opened Manifest
  import opened Descriptors
  import opened BuilderState
  import ComputeBuilder
  import StorageBuilder
  import EventBuilder
  import TriggerBuilder
  import ReferenceBuilder
  import Strings
  import Common
  import ActionMapper

  /** The application descriptor; the builder writes its stage. An absent
      (or empty) stage is "". */
  class App {
    var name: string
    var stage: string

    constructor(name: string, stage: string)
      ensures this.name == name && this.stage == stage
    {
      this.name := name;
      this.stage := stage;
    }
  }

  datatype Provider = Provider(
    name: string, region: Option<string>, stage: string, profile: string,
    deploymentBucket: string, tags: map<string, string>, deploymentPrefix: string)

  /** The manifest's fixed part: service name, plugin modules and provider. */
  datatype Config = Config(serviceName: string, pluginModules: seq<string>, provider: Provider)

  /** What `build` returns: the fixed part, the function entries and the
      `resources.Resources` blocks. */
  datatype BuiltManifest = BuiltManifest(
    config: Config, functions: map<string, FunctionEntry>, resources: map<string, CfnResource>)

  /** How a template literal prints the region: an absent one prints
      "undefined". */
  function RegionText(region: Option<string>): string {
    if region.Some? then region.value else "undefined"
  }

  /** The stage an application ends up with: its own, or 'dev'. */
  function DefaultStage(stage: string): (r: string)
    ensures r != ""
    ensures stage != "" ==> r == stage
    ensures stage == "" ==> r == "dev"
  {
    if stage == "" then "dev" else stage
  }

  /** The fixed part for an application with the given name and (already
      defaulted) stage. */
  function InitialConfig(cc: CaseFns, appName: string, stage: string, region: Option<string>): Config {
    Config(
      appName, ["serverless-iam-roles-per-function"],
      Provider("aws", region, stage, "scootr",
               "io.scootr." + RegionText(region) + ".deployments." + cc.param(appName),
               map["provisioner" := "scootr"], "scootr"))
  }

  const RegionMissing := "Failed to build configuration: region is missing"

  /** `build()`: fails without a region (absent or empty), and otherwise
      returns the fixed part with the current functions and blocks. */
  function BuildSpec(config: Config, reg: Registry): (r: Result<BuiltManifest>)
    ensures r.Ok? <==> config.provider.region.Some? && config.provider.region.value != ""
    ensures r.Err? ==> r.error == Error(RegionMissing)
    ensures r.Ok? ==> r.value == BuiltManifest(config, reg.functions, reg.resources)
  {
    if config.provider.region.None? || config.provider.region.value == "" then
      Err(Error(RegionMissing))
    else Ok(BuiltManifest(config, reg.functions, reg.resources))
  }

  class ConfigurationBuilder {
    const app: App
    const cc: CaseFns
    const config: Config
    var functions: map<string, FunctionEntry>
    var resources: map<string, CfnResource>
    var initializers: map<string, Initializer>

    function State(): Registry
      reads this
    {
      Registry(functions, resources, initializers)
    }

    /** The builder's invariant: the tables are well formed. */
    predicate Valid()
      reads this
    {
      WellFormed(State())
    }

    function AppInfoNow(): AppInfo
      reads this, app
    {
      AppInfo(app.name, app.stage)
    }

    /** `createConfigurationBuilder(app, region)`: defaults the
        application's stage to 'dev' in place, and fixes the provider section
        with that stage. */
    constructor(app: App, region: Option<string>, cc: CaseFns)
      modifies app
      ensures app.name == old(app.name) && app.stage == DefaultStage(old(app.stage))
      ensures this.app == app && this.cc == cc
      ensures config == InitialConfig(cc, app.name, app.stage, region)
      ensures State() == Empty
      ensures Valid()
    {
      if app.stage == "" {
        app.stage := "dev";
      }
      this.app := app;
      this.cc := cc;
      config := InitialConfig(cc, app.name, app.stage, region);
      functions := map[];
      resources := map[];
      initializers := map[];
    }

    method AddCompute(c: ComputeResource) returns (outcome: Outcome)
      requires Valid()
      modifies this
      ensures Reflects(old(State()), ComputeBuilder.AddComputeSpec(cc, old(State()), c), outcome, State())
      ensures Valid()
    {
      var handler: string;
      if Strings.Contains(c.runtime, "node") {
        handler := "handler.on" + cc.pascal(c.id);
      } else if Strings.Contains(c.runtime, "python") {
        handler := "handler." + cc.snake(c.id) + "_endpoint";
      } else {
        return Fail(ComputeBuilder.UnsupportedRuntime(c.runtime));
      }
      functions := functions[c.id := ComputeBuilder.NewEntry(c, handler)];
      outcome := Pass;
    }

    method AddStorage(s: StorageResource) returns (outcome: Outcome)
      requires Valid()
      modifies this
      ensures Reflects(old(State()), StorageBuilder.AddStorageSpec(old(State()), s), outcome, State())
      ensures Valid()
    {
      ghost var spec := StorageBuilder.AddStorageSpec(State(), s);
      match s.kind {
        case KeyValueStorage =>
          if s.engine == DynamoDb {
            initializers := initializers[s.id := TableInitializer(s.collection, s.key)];
            outcome := Pass;
            assert State() == spec.value;
          } else {
            outcome := Fail(StorageBuilder.UnsupportedEngine(s.engine));
          }
        case RelationalStorage =>
          outcome := Fail(StorageBuilder.RelationalRefusal());
        case _ =>
          outcome := Fail(StorageBuilder.UnsupportedType(s.kind));
      }
    }

    method AddEvent(e: EventResource) returns (outcome: Outcome)
      requires Valid()
      modifies this
      ensures Reflects(old(State()), EventBuilder.AddEventSpec(old(State()), e), outcome, State())
      ensures Valid()
    {
      match e.kind {
        case TopicEvent =>
          if e.broker == SnsBroker {
            initializers := initializers[e.id := TopicInitializer(e.id, e.name)];
            outcome := Pass;
          } else {
            outcome := Fail(EventBuilder.InvalidBroker(e.broker));
          }
        case HttpEvent =>
          outcome := Pass;
        case _ =>
          outcome := Fail(ReferenceError("event"));
      }
    }

    /** The loop of `addTrigger` that marks each path parameter required. */
    static method CollectPathParams(params: seq<string>) returns (paths: map<string, bool>)
      ensures paths == TriggerBuilder.PathParams(params)
    {
      paths := map[];
      for i := 0 to |params|
        invariant paths == TriggerBuilder.PathParams(params[..i])
      {
        assert params[..i + 1][..i] == params[..i];
        paths := paths[params[i] := true];
      }
      assert params[..|params|] == params;
    }

    method AddTrigger(t: Trigger) returns (outcome: Outcome)
      requires Valid()
      modifies this
      ensures Reflects(old(State()), TriggerBuilder.AddTriggerSpec(cc, old(AppInfoNow()), old(State()), t), outcome, State())
      ensures Valid()
    {
      var source := t.source;
      var event: Event;
      match source.kind {
        case HttpEvent =>
          var params: Option<map<string, bool>> := None;
          if |source.params| > 0 {
            var paths := CollectPathParams(source.params);
            params := Some(paths);
          }
          event := Http(source.path, source.httpMethod, true, params);
        case TopicEvent =>
          event := Sns(Ref(source.id), Common.GenerateTopicName(cc, app.name, app.stage, source.name));
        case _ =>
          return Fail(TriggerBuilder.UnsupportedEventType(source.kind));
      }
      if t.targetId !in functions {
        return Fail(TypeError("events"));
      }
      var target := functions[t.targetId];
      functions := functions[t.targetId := target.(events := target.events + [event])];
      outcome := Pass;
    }

    method AddReference(ref: Reference) returns (outcome: Outcome)
      requires Valid()
      modifies this
      ensures Reflects(old(State()), ReferenceBuilder.AddReferenceSpec(cc, old(AppInfoNow()), old(State()), ref),
                       outcome, State())
      ensures Valid()
    {
      if !ReferenceBuilder.Grantable(ref.target) {
        return Fail(ReferenceBuilder.RefusalOf(ref.target));
      }
      var actions := ActionMapper.TransformPermissions(ReferenceBuilder.ServiceOf(ref.target), ref.allows);
      if actions.Err? {
        return Fail(actions.error);
      }
      if ref.sourceId !in functions {
        return Fail(TypeError("iamRoleStatements"));
      }
      var statement := Statement("Allow", actions.value, ReferenceBuilder.ResourceOf(ref));
      functions := ReferenceBuilder.PushStatement(functions, ref.sourceId, statement);
      var next := ReferenceBuilder.RunInitializer(cc, AppInfoNow(), State(), ref);
      functions, resources := next.functions, next.resources;
      outcome := Pass;
    }

    /** `build()` */
    function Build(): (r: Result<BuiltManifest>)
      reads this
      ensures r.Ok? <==> config.provider.region.Some? && config.provider.region.value != ""
      ensures r.Ok? ==> r.value.config == config && r.value.functions == functions && r.value.resources == resources
    {
      BuildSpec(config, State())
    }
  }
}
