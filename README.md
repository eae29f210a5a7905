# scootr-aws: a Dafny model of the driver's core

scootr-aws is the AWS driver of the scootr framework. The framework describes
an application as resources: compute functions, key-value storage, events,
triggers that fire functions and references that let a function use a
resource. The driver turns these resources into a Serverless Framework
manifest (`serverless.yaml`), lays out the functions' code and entry files,
and reads the deploy tool's console output back into a deployment result.

This project models:

- **The configuration builder.** This is `lib/config-builder`.
  - `Builder.ConfigurationBuilder` is a class that holds the function entries, the CloudFormation blocks and the deferred initializers.
  - Each of its methods is proved against a pure specification function in its own builder module: `ComputeBuilder`, `StorageBuilder`, `EventBuilder`, `TriggerBuilder` and `ReferenceBuilder`.
  - A failed operation leaves the state unchanged.
  - Every operation keeps the registry well formed: key schemas agree with attribute definitions, and IAM statements hold no duplicate actions.
  - Storage and topic resources are created lazily, when the first reference to them runs the deferred initializer.
- **The permission mapper.** `ActionMapper` maps scootr actions to DynamoDB or SNS IAM actions. It keeps a JavaScript `Set`'s insertion order and drops duplicates, and it names the first unsupported action.
- **The older builder.** `LegacyConfig` models `lib/config.js`. It includes its one-shot initializers and the case where a failure happens after the IAM statement was already pushed.
- **The deploy monitor.** `Deployer` models the stdout parser of `lib/deployer.js`.
  - `Deployer.DeployMonitor` is the closure state (`finished`, `failure`, `result`) that is updated chunk by chunk.
  - The regular expressions are written out with their exact greedy, multi-line semantics. Lines are split on all four JavaScript line terminators.
  - The `close` handler settles the promise.
- **The workspace helpers.** These are `CodeConfig`, `NodeDependencies`, `EntryBuilders` and `Template`:
  - the code configuration of a compute resource;
  - the `require('…')` dependency scanner and its root-package rule;
  - the node and python entry-file builders;
  - the older `generateEntry` template.

Strings are `seq<char>`. The change-case library (`pascalCase`, `paramCase`,
`snakeCase`) is a parameter `CaseFns` of three uninterpreted functions.

## Model

| member | source | states |
|---|---|---|
| Common.GenerateTopicName | lib/config-builder/common.js:5-7 | the topic name is the param-cased service and stage followed by the topic's own name, joined by dashes; it always ends in `-<name>` |
| ComputeBuilder.AddComputeSpec | lib/config-builder/compute-builder.js:13-35 | succeeds iff the runtime mentions node or python, else the exact error; writes one entry whose handler is `handler.on<PascalCase(id)>` for node and `handler.<snake_case(id)>_endpoint` otherwise, named `<id>-${self:provider.stage}`, with the description or `''`, the runtime, environment and tags copied, and no events or IAM statements; other entries, blocks and initializers unchanged; keeps the registry well formed |
| ComputeBuilder.NodeHandler | lib/config-builder/compute-builder.js:15-16 | a node runtime gets handler `handler.on<PascalCase(id)>` |
| ComputeBuilder.PythonHandler | lib/config-builder/compute-builder.js:17-18 | a python runtime (not node) gets handler `handler.<snake_case(id)>_endpoint` |
| StorageBuilder.AddStorageSpec | lib/config-builder/storage-builder.js:16-75 | succeeds iff key-value storage on DynamoDB; each other case gives its own error (relational, unsupported type, unsupported engine); success only registers a table initializer under the resource's id and touches nothing else |
| StorageBuilder.RunTableInitializer | lib/config-builder/storage-builder.js:42-67 | binds the reference's environment variable to the per-stage table name; creates the table block only when the collection has none; never removes or changes an existing block; keeps the registry well formed |
| EventBuilder.AddEventSpec | lib/config-builder/event-builder.js:15-57 | HTTP events change nothing; SNS topic events register a topic initializer; other brokers and types are refused with their errors |
| EventBuilder.RunTopicInitializer | lib/config-builder/event-builder.js:38-51 | binds the reference's variable to `Ref` of the topic; creates the SNS topic block, with its display and topic names, only once; keeps the registry well formed |
| TriggerBuilder.PathParams | lib/config-builder/trigger-builder.js:32-34 | the path-parameter map has exactly the trigger's parameter names as keys, each marked required |
| TriggerBuilder.TriggerEvent | lib/config-builder/trigger-builder.js:17-53 | HTTP and topic sources succeed, anything else gives the exact error; an HTTP event carries path parameters iff there are any; a topic event's ARN is `Ref` of the source |
| TriggerBuilder.AddTriggerSpec | lib/config-builder/trigger-builder.js:13-55 | succeeds iff the event can be built and the target exists (else the event error or the TypeError); appends the event to the target only; keeps the registry well formed |
| TriggerBuilder.TopicTriggerMatchesBlock | lib/config-builder/trigger-builder.js:38-49 | a topic trigger subscribes by the same generated topic name that the topic's block is created with |
| Builder.ConfigurationBuilder.CollectPathParams | lib/config-builder/trigger-builder.js:26-35 | the loop builds exactly the path-parameter map |
| ReferenceBuilder.PushStatement | lib/config-builder/reference-builder.js:49-54 | appends one IAM statement to the source function, leaving its environment, its events and every other function unchanged |
| ReferenceBuilder.PushKeepsWellFormed | lib/config-builder/reference-builder.js:80-87 | pushing a duplicate-free statement keeps the registry well formed |
| ReferenceBuilder.RunInitializer | lib/config-builder/reference-builder.js:65-67 | with no initializer for the target nothing changes; a table initializer binds the reference id to the table variable and adds the table block only if the collection has none; a topic initializer binds it to `Ref` of the topic and adds the topic block only if absent; statements, events and other functions are kept; keeps the registry well formed |
| ReferenceBuilder.AddReferenceSpec | lib/config-builder/reference-builder.js:14-99 | succeeds iff the target kind and engine or broker are supported, every action maps and the source exists, with the matching error otherwise; success is the target's initializer (see `RunInitializer`) run on the registry in which the source gained one `Allow` statement with the mapped actions on the target's resource |
| ReferenceBuilder.InitializerIdempotent | lib/config-builder/storage-builder.js:46-66 | running a target's initializer twice for the same reference equals running it once |
| ReferenceBuilder.SharedTableCreatedOnce | lib/config-builder/storage-builder.js:42-67 | two functions referencing one table: the table block is created by the first reference, and both functions get their own variable bound to the same table name |
| ActionMapper.ActionsFor | lib/config-builder/reference-builder.js:104-181 | succeeds iff every action is supported by the service; otherwise names the first unsupported action; the result has no duplicates and holds exactly the IAM actions some listed action grants |
| ActionMapper.AddGrantsOutcome | lib/config-builder/reference-builder.js:104-181 | the accumulating loop succeeds iff every action is supported; otherwise it fails with the error of the first unsupported action |
| ActionMapper.AddGrantsDistinct | lib/config-builder/reference-builder.js:104-181 | a successful loop started from a duplicate-free set yields a duplicate-free set |
| ActionMapper.AddGrantsContents | lib/config-builder/reference-builder.js:104-181 | a successful loop holds exactly what it started with plus every IAM action granted by some permission |
| ActionMapper.TransformPermissions | lib/config-builder/reference-builder.js:104-142 | the set-building loop returns exactly `ActionsFor` |
| ActionMapper.AddGrantsStep | lib/config-builder/reference-builder.js:106-139 | one supported action adds its grants before the rest |
| ActionMapper.DynamoDbAllGrants | lib/config-builder/reference-builder.js:127-134 | `All` on DynamoDB grants the six item actions in their insertion order |
| ActionMapper.DynamoDbAllCovers | lib/config-builder/reference-builder.js:108-134 | every DynamoDB action any permission grants is also granted by `All` |
| ActionMapper.DynamoDbAllSubsumes | lib/config-builder/reference-builder.js:104-142 | adding `All` to valid DynamoDB permissions yields exactly `All`'s grants |
| ActionMapper.DynamoDbAllIsUnion | lib/config-builder/reference-builder.js:104-142 | for DynamoDB, any valid list naming `Create`, `Read`, `Update` and `Delete` grants, as a set, exactly what `All` grants: `All` is the union of the four |
| ActionMapper.ItemActionsSupported | lib/config-builder/reference-builder.js:106-126 | the list `[Create, Read, Update, Delete]` is accepted by the DynamoDB mapper, so `DynamoDbAllIsUnion` applies to it |
| ActionMapper.SnsAllGrants | lib/config-builder/reference-builder.js:167-174 | `All` on SNS grants five actions in insertion order |
| ActionMapper.SnsAttributesOnlyByUpdate | lib/config-builder/reference-builder.js:147-181 | a valid SNS permission list grants `sns:SetTopicAttributes` iff it holds `Update`, so `All` alone does not grant it |
| ActionMapper.SnsOverlapCollapses | lib/config-builder/reference-builder.js:151-161 | `Create` then `Update` keeps `sns:Publish` once, in first-insertion position |
| OrderedSets.Add | lib/config-builder/reference-builder.js:109 | JavaScript `Set.add`: membership gains exactly the element, no duplicates appear |
| OrderedSets.AddAll | lib/config-builder/dependencies/node.js:12-15 | adding many elements: membership is the union, no duplicates appear |
| OrderedSets.AddAllExtends | lib/config-builder/dependencies/node.js:12-15 | insertion order of earlier elements is kept |
| OrderedSets.AddAllConcat | lib/config-builder/dependencies/node.js:12-15 | adding two batches equals adding their concatenation |
| OrderedSets.AddAllFresh | lib/config-builder/dependencies/node.js:12-15 | adding only new distinct elements appends them in order |
| BuilderState.SetEnvironment | lib/config-builder/storage-builder.js:44-45 | sets one environment variable of one function and changes nothing else |
| Builder.DefaultStage | lib/config-builder/builder.js:13-15 | a missing stage becomes `dev`, a given one is kept |
| Builder.BuildSpec | lib/config-builder/builder.js:49-62 | building succeeds iff a region is set, else the exact error; the manifest is the fixed config with the current functions and resources |
| Builder.ConfigurationBuilder.constructor | lib/config-builder/builder.js:11-46 | defaults the app's stage, fixes the config (bucket name from region and param-cased app name) and starts with empty maps |
| Builder.ConfigurationBuilder.AddCompute | lib/config-builder/compute-builder.js:13-35 | the state after the call is `AddComputeSpec` of the state before, or unchanged with the error reported |
| Builder.ConfigurationBuilder.AddStorage | lib/config-builder/storage-builder.js:16-28 | the new state follows `AddStorageSpec`; a refusal changes nothing |
| Builder.ConfigurationBuilder.AddEvent | lib/config-builder/event-builder.js:15-27 | the new state follows `AddEventSpec`; a refusal changes nothing |
| Builder.ConfigurationBuilder.AddTrigger | lib/config-builder/trigger-builder.js:13-55 | the new state follows `AddTriggerSpec`; a refusal changes nothing |
| Builder.ConfigurationBuilder.AddReference | lib/config-builder/reference-builder.js:14-99 | the new state follows `AddReferenceSpec`; a refusal changes nothing |
| Builder.ConfigurationBuilder.Build | lib/config-builder/builder.js:49-62 | succeeds iff a region is set; returns the config with the current functions and resources |
| LegacyConfig.LegacyEvents | lib/config.js:53-66 | all triggers map to HTTP events, one per trigger, in order; any other type is refused |
| LegacyConfig.LegacyAddComputeSpec | lib/config.js:41-69 | adds or replaces the function with handler `handler.on<PascalCase(id)>`, name `<id>-${self:provider.stage}`, the description or `''`, the runtime, copies of environment and tags, the mapped events and no statements; fails with the event error; nothing else changes |
| LegacyConfig.LegacyAddStorageSpec | lib/config.js:71-109 | accepts DynamoDB storage with at most one table and records its pending table; otherwise the matching error |
| LegacyConfig.LegacyActions | lib/config.js:138-176 | same grants as the new DynamoDB mapper; an unsupported action throws the ReferenceError from the undefined `a` |
| LegacyConfig.LegacyTableBlock | lib/config.js:85-103 | the table's attribute definitions and HASH key schema list the table's primaries in order |
| LegacyConfig.LegacyAddConnectionOutcome | lib/config.js:111-132 | a connection succeeds iff its actions are known, its source is a function and its pending initializer is not `undefined`; unknown actions throw ReferenceError and an unknown source throws TypeError, both leaving the state as it was |
| LegacyConfig.LegacyAddConnectionStatement | lib/config.js:111-132 | with known actions and source, the source's statements gain exactly one `Allow` statement on the table's ARN, the one the new builder writes for a DynamoDB reference |
| LegacyConfig.LegacyAddConnectionInitializer | lib/config.js:111-132 | a successful run clears the target's pending initializer and writes the provider environment entry and the table block; with no initializer, or when the initializer throws TypeError on `name`, those three stay unchanged |
| LegacyConfig.InitializerRunsOnce | lib/config.js:128-131 | a second connection to the same storage does not re-run its initializer |
| LegacyConfig.EmptyTablesFailLate | lib/config.js:85-103 | storage with no tables is accepted, and its first connection fails, keeping the pushed statement |
| LegacyConfig.Configuration.constructor | lib/config.js:8-36 | the stage defaults to `dev`; the state starts empty |
| LegacyConfig.Configuration.AddCompute | lib/config.js:41-69 | the new state follows `LegacyAddComputeSpec` |
| LegacyConfig.Configuration.AddStorage | lib/config.js:71-109 | the new state follows `LegacyAddStorageSpec` |
| LegacyConfig.Configuration.AddConnection | lib/config.js:111-132 | the new state and thrown error follow `LegacyAddConnectionSpec`, including the partial update |
| Strings.IndexOf | lib/config-builder/dependencies/node.js:10 | first occurrence, or none iff the substring does not occur |
| Strings.LastIndexOf | lib/deployer.js:74 | last occurrence, or none iff the substring does not occur |
| Strings.SplitOn | lib/config-builder/dependencies/node.js:27 | `String.split`: at least one piece, and no piece holds a separator |
| Strings.JoinSplit | lib/config-builder/dependencies/node.js:27 | joining the pieces of a split on one character with that character gives back the string |
| Strings.Lines | lib/deployer.js:63 | the lines a multi-line regular expression sees: at least one, none holding any of the four line terminators |
| Strings.Trim | lib/deployer.js:61 | `String.trim`: the result occurs in the input and neither starts nor ends with whitespace or a line terminator |
| Strings.ToLower | lib/deployer.js:80 | lower-cases letter by letter, keeping the length |
| Deployer.LastSplit | lib/deployer.js:74 | the rightmost split point of a greedy group before a marker |
| Deployer.MatchEndpointWhen | lib/deployer.js:74-82 | an endpoint line matches iff it starts with two spaces and has a ` - ` whose right side contains `/<stage>` |
| Deployer.MatchEndpointSplit | lib/deployer.js:74-82 | the greedy method group ends at the last such ` - `; the method is that text lower-cased and the URL is everything after it |
| Deployer.MatchEndpointPath | lib/deployer.js:74-82 | the path is what follows the URL's last `/<stage>` |
| Deployer.EndpointEventsFromLines | lib/deployer.js:76-83 | each event comes from an endpoint line, at most one per line; every line splits the events into those of the lines before it, its own event if it matches, and those after it, so every matching line gives one event, in line order |
| Deployer.FieldSplitMeaning | lib/deployer.js:86-94 | a `key: value` line splits at its last `: ` |
| Deployer.MetaKeys | lib/deployer.js:107-111 | the meta keys are exactly the keys of the banner's `key: value` lines |
| Deployer.MetaLastWins | lib/deployer.js:107-111 | each meta key maps to the value on its last line |
| Deployer.FunctionInfosFromLines | lib/deployer.js:86-94 | each record comes from a line `  <id>: <name>` split at its last `: `; every line splits the records into those before it, its own record if it is an indented field line, and those after it, so every such line gives one record, in line order |
| Deployer.ErrorMessage | lib/deployer.js:114-121 | the message is what follows the first `Error: ` up to the end of its line, and holds no line terminator |
| Deployer.Step | lib/deployer.js:60-124 | one stdout chunk: a chunk with a dots-only or empty line changes nothing; a failure with a result ignores everything; after the banner, an `endpoints` chunk appends exactly `EndpointEvents` for the recorded stage and otherwise a `functions` chunk appends exactly `FunctionInfos`, meta unchanged; before the banner (and unless a failure already has a result) a chunk holding `Service Information` sets `finished` and the result to `Meta` of its lines with no events or functions, and only such a chunk sets `finished`; otherwise an `Error` chunk marks failure and records the `ErrorMessage` if there is one, and any other chunk changes nothing |
| Deployer.Run | lib/deployer.js:60-124 | feeding a sequence of chunks keeps the parser state consistent |
| Deployer.Settle | lib/deployer.js:130-138 | the promise resolves with the result iff there is one, whatever the exit code |
| Deployer.DeployMonitor.constructor | lib/deployer.js:57-59 | the monitor starts unfinished, with no failure and no result |
| Deployer.DeployMonitor.OnData | lib/deployer.js:60-124 | the monitor's new state is `Step` of its old state |
| Deployer.DeployMonitor.Close | lib/deployer.js:130-138 | closing returns `Settle` of the current state |
| Deployer.CollectEndpoints | lib/deployer.js:76-83 | the `exec` loop collects exactly `EndpointEvents` |
| Deployer.CollectFunctions | lib/deployer.js:88-93 | the `exec` loop collects exactly `FunctionInfos` |
| Deployer.CollectMeta | lib/deployer.js:109-111 | the `exec` loop builds exactly `Meta` |
| Deployer.EndpointEventsConcat | lib/deployer.js:76-83 | scanning two blocks of lines equals scanning them one after the other |
| Deployer.FailureIsFinal | lib/deployer.js:66-68 | once failed with a result, no later chunk changes the state |
| Deployer.FinishedOnlyGrows | lib/deployer.js:69-94 | once finished, later chunks only append events and compute records and keep meta |
| Deployer.QuietChunk | lib/deployer.js:60-124 | a short chunk without the banner or an `E` leaves a fresh parser unchanged |
| Deployer.SplitBannerRejected | lib/deployer.js:95-138 | a banner split across two chunks is never seen, so the deploy is rejected |
| Deployer.BareErrorFreezesBanner | lib/deployer.js:66-123 | a chunk with `Error` but no `Error: ` marks failure without a result; the next banner then sets a result that no later chunk changes |
| CodeConfig.LanguageOf | lib/workspace/code/code-config.js:21-29 | node iff the runtime mentions node; python iff it mentions python but not node; otherwise the exact error |
| CodeConfig.CreateCodeConfiguration | lib/workspace/code/code-config.js:5-19 | succeeds iff the language is known; the name is param- or snake-cased by language, the file name is name plus extension, and the code is copied |
| CodeConfig.ExtensionRoundTrip | lib/workspace/code/code-config.js:40-47 | each language's extension identifies that language and back |
| CodeConfig.LanguageAgreesWithHandler | lib/workspace/code/code-config.js:21-29 | the code configuration and the compute builder accept the same runtimes and choose the same language |
| NodeDependencies.RootOfSegments | lib/config-builder/dependencies/node.js:26-33 | a scoped path `@scope/name/…` keeps two segments; an unscoped one keeps the first |
| NodeDependencies.RootOfPlain | lib/config-builder/dependencies/node.js:26-33 | a specifier with no `/` is its own root |
| NodeDependencies.RequireSpecifierWhen | lib/config-builder/dependencies/node.js:10-15 | a line has a specifier iff it holds `require('` and a `')` after the first one |
| NodeDependencies.RequireSpecifierShape | lib/config-builder/dependencies/node.js:10-15 | the line reads `require('<specifier>')` from its first `require('`, and no `')` follows that closing one |
| NodeDependencies.RootsFromLines | lib/config-builder/dependencies/node.js:10-15 | each root is the root of some `require` line's specifier; every line splits the roots into those before it, its own root if it holds a `require`, and those after it, so every such line gives one root, in line order |
| NodeDependencies.RootsConcat | lib/config-builder/dependencies/node.js:10-15 | scanning two blocks of lines equals scanning them in turn |
| NodeDependencies.DependencyCollector.Extract | lib/workspace/code/dependencies/builders/node.js:9-16 | the set gains the roots of every require line in order, with no duplicates |
| NodeDependencies.DependencyCollector.ExtractCompute | lib/config-builder/dependencies/node.js:9-16 | same as `Extract` on the compute's code |
| NodeDependencies.DependencyCollector.List | lib/config-builder/dependencies/node.js:18-20 | lists the collected roots in insertion order, without duplicates |
| NodeDependencies.ExtractOnlyAdds | lib/config-builder/dependencies/node.js:9-16 | extraction keeps every earlier dependency in place |
| NodeDependencies.RequireLine | lib/config-builder/dependencies/node.js:10 | a line `…require('<spec>')…` yields `<spec>` |
| NodeDependencies.ScopedAndNestedRoots | test/config-builder/dependencies/node.test.js:9-24 | requires of `@foo/bar`, `baz` and `alpha/bravo/charlie` list `@foo/bar`, `baz`, `alpha` |
| EntryBuilders.NodeEntryShape | lib/workspace/code/entry-builders/node.js:15-20 | `handler.js` opens with the prelude, closes the object and contains every file's export |
| EntryBuilders.NodeEntryAddFile | lib/workspace/code/entry-builders/node.js:11-20 | one more file adds its export at the end, after a separator when others exist |
| EntryBuilders.NodeEntryEmpty | lib/workspace/code/entry-builders/node.js:15-20 | with no files the entry is the prelude and the closing |
| EntryBuilders.PythonEntryLines | lib/workspace/code/entry-builders/python.js:13-22 | `handler.py` read line by line is one import per file, in order, then the empty line after the final newline |
| EntryBuilders.PythonEntryAliases | lib/workspace/code/entry-builders/python.js:15-18 | every file's endpoint is aliased as `<file>_endpoint` |
| EntryBuilders.PythonEntryServesHandler | lib/workspace/code/entry-builders/python.js:15-18 | a python compute's handler names an alias that the entry defines |
| EntryBuilders.NodeEntryBuilder.AddFile | lib/workspace/code/entry-builders/node.js:11-13 | appends the name, keeping duplicates |
| EntryBuilders.NodeEntryBuilder.BuildEntryFile | lib/workspace/code/entry-builders/node.js:15-20 | builds exactly `NodeEntry` of the current files |
| EntryBuilders.PythonEntryBuilder.AddFile | lib/workspace/code/entry-builders/python.js:9-11 | appends the name, keeping duplicates |
| EntryBuilders.PythonEntryBuilder.BuildEntryFile | lib/workspace/code/entry-builders/python.js:13-22 | builds exactly `PythonEntry` of the current files, ending in a newline |
| Template.GenerateEntryShape | lib/template.js:5-11 | the entry opens with the prelude, closes the object and contains every handler's export |
| Template.GenerateEntryAddHandler | lib/template.js:5-11 | one more handler adds its export at the end |
| Template.GenerateEntryMatchesBuilder | lib/template.js:5-11 | the template and the node entry builder write the same text when each handler's id and file are the file name |

## Left out

- Running the deploy tool (`spawn`), the S3 bucket set-up, stderr logging, the logger, the file system and YAML dumping: these are I/O. The stdout chunks and the exit code are parameters of the deploy monitor.
- The change-case library is not part of this model. `pascalCase`, `paramCase` and `snakeCase` are uninterpreted parameters, so a property that depends on what they compute is not stated. One example is the node entry key `on<PascalCase(file)>` against the handler `on<PascalCase(id)>`, where the file is the param-cased id.
- Strings.ToLower: only ASCII letters are folded, whereas JavaScript's `toLowerCase` folds all of Unicode.
- scootr's `types`, `actions` and the broker enumeration are not part of this model. Resource kinds, actions and brokers are datatypes, and the names printed in error messages for them are stand-ins.
- Descriptor fields the builders only copy (description, runtime, environment, tags, name suffix) are stated as copied, in both the builder and the earlier configuration object, and nothing more is proved about them; the `localPath` plugin directory is left out because it is a file-system path.
- JavaScript object key order is not modelled: maps are unordered; arrays and `Set`s keep their order.
- Builder.ConfigurationBuilder.Build: the returned manifest shares the builder's `functions` object in the source, so later builder calls would show through it; the model returns a value copy.
- The deploy result's `storage` and `connections` fields are always empty in the source and are left out; so is its `type: 'http'` tag and `success` flag, which `Deployed`/`DeployFailed` carry instead.
- Deployer.MatchEndpointWhen: the stage is treated as literal text, whereas the source interpolates it into a regular expression, so a stage containing regex metacharacters behaves differently there.
- LegacyConfig.Configuration.constructor: the `assert(app, …)` on a missing application is left out; the model always has an application.
- The secretary, workspace builder, janitor, installers and `index.js` driver glue are not part of this model; they sequence the modelled operations with file-system I/O.
- The dependency test's surrounding code text (`'use strict'`, the function body) is abstracted: `ScopedAndNestedRoots` takes the three require lines with arbitrary text around each call, which covers the test's lines.

Behaviours of the code worth noting:

- The deploy monitor only recognises the `Service Information` banner inside one chunk (`SplitBannerRejected`; lib/deployer.js:95).
- It resolves whenever a result exists, even with a non-zero exit code, and rejects otherwise (`Settle`; lib/deployer.js:130-137).
- The new builder keeps its initializers after they run, so every later reference re-runs them. The block is still created once (`InitializerIdempotent`, `SharedTableCreatedOnce`). The older builder clears them (`InitializerRunsOnce`). See lib/config-builder/reference-builder.js:65-67 and lib/config.js:128-131.
