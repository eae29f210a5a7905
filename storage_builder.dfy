/** lib/config-builder/storage-builder.js: a DynamoDB key-value storage
    resource leaves a table initializer behind; the table block and the
    environment binding are written only when a reference reaches it. */
module StorageBuilder {
  import opened Wrappers
  import opened Manifest
  import opened Descriptors
  import opened BuilderState

  const RelationalRefusalText := "Failed to add storage resource: The driver does not yet support relational storage types"
  const UnsupportedTypeText := "Failed to add storage resource: got unsupported type: "
  const UnsupportedEngineText := "Failed to add key-value storage to configuration: Got unsupported engine type "

  /** The refusal of relational storage. */
  function RelationalRefusal(): Error {
    Error(RelationalRefusalText)
  }

  /** The refusal of a storage type the driver does not know. */
  function UnsupportedType(kind: ResourceType): Error {
    Error(UnsupportedTypeText + kind.Name())
  }

  /** The refusal of a key-value engine other than DynamoDB. */
  function UnsupportedEngine(engine: Engine): Error {
    Error(UnsupportedEngineText + engine.Name())
  }

  /** `addStorage(resource)`: registers (or replaces) the initializer under
      the resource's id; the manifest itself is untouched. */
  function AddStorageSpec(reg: Registry, s: StorageResource): (r: Result<Registry>)
    ensures r.Ok? <==> s.kind == KeyValueStorage && s.engine == DynamoDb
    ensures s.kind == RelationalStorage ==> r == Err(RelationalRefusal())
    ensures s.kind != KeyValueStorage && s.kind != RelationalStorage ==> r == Err(UnsupportedType(s.kind))
    ensures s.kind == KeyValueStorage && s.engine != DynamoDb ==> r == Err(UnsupportedEngine(s.engine))
    ensures r.Ok? ==> r.value.functions == reg.functions && r.value.resources == reg.resources
    ensures r.Ok? ==> r.value.initializers == reg.initializers[s.id := TableInitializer(s.collection, s.key)]
  {
    match s.kind
    case KeyValueStorage =>
      if s.engine == DynamoDb then
        Ok(reg.(initializers := reg.initializers[s.id := TableInitializer(s.collection, s.key)]))
      else
        Err(UnsupportedEngine(s.engine))
    case RelationalStorage =>
      Err(RelationalRefusal())
    case _ =>
      Err(UnsupportedType(s.kind))
  }

  /** The environment value a reference to `collection` receives. */
  function TableVariable(collection: string): string {
    ServicePrefix + collection + StageSuffix
  }

  /** The table block, named after the first reference that reached it. */
  function TableBlock(refId: string, key: KeyDef): CfnResource {
    Table(EnvironmentPrefix + refId + "}", PayPerRequest,
          [AttributeDefinition(key.name, key.keyType)], [KeySchemaElement(key.name, "HASH")])
  }

  /** Running a table initializer for reference `refId` from function
      `sourceId`: binds `refId` in that function's environment and creates
      the table block under the collection's name unless a block is already
      there. */
  function RunTableInitializer(reg: Registry, collection: string, key: KeyDef, refId: string, sourceId: string): (r: Registry)
    requires sourceId in reg.functions
    ensures r.functions == SetEnvironment(reg.functions, sourceId, refId, Text(TableVariable(collection)))
    ensures r.initializers == reg.initializers
    ensures KeepsBlocks(reg.resources, r.resources)
    ensures r.resources.Keys == reg.resources.Keys + {collection}
    ensures collection !in reg.resources ==> r.resources[collection] == TableBlock(refId, key)
    ensures r.resources == if collection in reg.resources then reg.resources
                           else reg.resources[collection := TableBlock(refId, key)]
    ensures WellFormed(reg) ==> WellFormed(r)
  {
    var fs := SetEnvironment(reg.functions, sourceId, refId, Text(TableVariable(collection)));
    if collection in reg.resources then reg.(functions := fs)
    else reg.(functions := fs, resources := reg.resources[collection := TableBlock(refId, key)])
  }
}
