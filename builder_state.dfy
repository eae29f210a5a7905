/** The three tables the configuration builder of lib/config-builder/ shares
    between its parts: the function entries, the CloudFormation blocks, and
    the deferred initializers that storage and event resources leave behind
    for the references that later reach them. */
module BuilderState {
  import opened Wrappers
  import opened OrderedSets
  import opened Manifest
  import opened Descriptors

  /** A deferred initializer, waiting for a reference to its resource.
      - `TableInitializer`: left by a DynamoDB key-value storage; it names
        the collection and the primary key of the table it will create.
      - `TopicInitializer`: left by an SNS topic event; it names the event
        and the topic name given in the descriptor. */
  datatype Initializer =
    | TableInitializer(collection: string, key: KeyDef)
    | TopicInitializer(topicId: string, topicName: string)

  datatype Registry = Registry(
    functions: map<string, FunctionEntry>,
    resources: map<string, CfnResource>,
    initializers: map<string, Initializer>)

  /** The application's name and stage, as read when an operation runs. */
  datatype AppInfo = AppInfo(name: string, stage: string)

  /** `after` is what an operation with specification `spec` leaves behind
      when run on `before`, and `outcome` is what it reports: on an error the
      tables are as they were. */
  predicate Reflects(before: Registry, spec: Result<Registry>, outcome: Outcome, after: Registry) {
    match spec
    case Ok(next) => outcome == Pass && after == next
    case Err(e) => outcome == Fail(e) && after == before
  }

  /** Every block of `before` is in `after`, unchanged. */
  predicate KeepsBlocks(before: map<string, CfnResource>, after: map<string, CfnResource>) {
    forall k :: k in before ==> k in after && after[k] == before[k]
  }

  /** A table block has one attribute definition and one `HASH` key on that
      same attribute. */
  predicate WellFormedBlock(b: CfnResource) {
    b.Table? ==>
      |b.attributeDefinitions| == 1 && |b.keySchema| == 1
      && b.keySchema[0].keyType == "HASH"
      && b.keySchema[0].attributeName == b.attributeDefinitions[0].attributeName
  }

  /** An IAM statement the builder writes allows, and lists each action
      once. */
  predicate WellFormedStatement(s: Statement) {
    s.effect == "Allow" && NoDuplicates(s.action)
  }

  /** The invariant every builder operation keeps. */
  predicate WellFormed(reg: Registry) {
    (forall k :: k in reg.resources ==> WellFormedBlock(reg.resources[k]))
    && (forall id :: id in reg.functions ==>
          forall s :: s in Statements(reg.functions[id]) ==> WellFormedStatement(s))
  }

  /** The tables a builder starts from. */
  const Empty: Registry := Registry(map[], map[], map[])

  lemma EmptyIsWellFormed()
    ensures WellFormed(Empty)
  {
  }

  /** Binds `key` to `v` in the environment of function `fid`. */
  function SetEnvironment(fs: map<string, FunctionEntry>, fid: string, key: string, v: Value): (r: map<string, FunctionEntry>)
    requires fid in fs
    ensures r.Keys == fs.Keys
    ensures forall id :: id in fs && id != fid ==> r[id] == fs[id]
    ensures r[fid].environment == fs[fid].environment[key := v]
    ensures r[fid] == fs[fid].(environment := r[fid].environment)
  {
    fs[fid := fs[fid].(environment := fs[fid].environment[key := v])]
  }
}
