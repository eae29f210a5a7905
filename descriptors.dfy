/** The resource descriptors the upstream modelling library (scootr) delivers,
    and the enumerations the adapter switches on. The library's `types` and
    `actions` constants are not part of this model; each is a constructor
    here, and its `Name()` is the text the adapter's error messages print. */
module Descriptors {
  import opened Wrappers
  import opened Manifest

  datatype ResourceType =
    | Compute | KeyValueStorage | RelationalStorage | HttpEvent | TopicEvent
    | OtherType(typeName: string)
  {
    function Name(): string {
      match this
      case Compute => "Compute"
      case KeyValueStorage => "KeyValueStorage"
      case RelationalStorage => "RelationalStorage"
      case HttpEvent => "HttpEvent"
      case TopicEvent => "TopicEvent"
      case OtherType(n) => n
    }
  }

  /** Storage engines; `DynamoDb` is 'dynamo-db' (lib/enums/storage.js). */
  datatype Engine = DynamoDb | OtherEngine(engineName: string)
  {
    function Name(): string {
      match this
      case DynamoDb => "dynamo-db"
      case OtherEngine(n) => n
    }
  }

  /** Message brokers; lib/enums/brokers.js is not part of this model, so the
      text of `SNS` is taken to be "sns". */
  datatype Broker = SnsBroker | OtherBroker(brokerName: string)
  {
    function Name(): string {
      match this
      case SnsBroker => "sns"
      case OtherBroker(n) => n
    }
  }

  /** The abstract permission actions of a reference's `allows` list, with
      the texts of lib/storage.js. */
  datatype Action = Create | Read | Update | Delete | All | OtherAction(actionName: string)
  {
    function Name(): string {
      match this
      case Create => "create"
      case Read => "read"
      case Update => "update"
      case Delete => "delete"
      case All => "*"
      case OtherAction(n) => n
    }
  }

  /** The primary key of a key-value collection: name and attribute type. */
  datatype KeyDef = KeyDef(name: string, keyType: string)

  /** A compute resource; `description` is absent when the descriptor has
      none (or a falsy one). */
  datatype ComputeResource = ComputeResource(
    id: string, runtime: string, description: Option<string>,
    environment: map<string, Value>, tags: map<string, string>, code: string)

  datatype StorageResource = StorageResource(
    id: string, kind: ResourceType, engine: Engine, collection: string, key: KeyDef)

  datatype EventResource = EventResource(id: string, kind: ResourceType, broker: Broker, name: string)

  /** The source of a trigger: an HTTP event (path, method and the names of
      its path parameters) or a topic event (id and topic name). */
  datatype TriggerSource = TriggerSource(
    id: string, kind: ResourceType, path: string, httpMethod: string, params: seq<string>, name: string)

  /** A trigger from an event to the compute resource `targetId`. */
  datatype Trigger = Trigger(source: TriggerSource, targetId: string)

  datatype RefTarget = RefTarget(id: string, kind: ResourceType, engine: Engine, broker: Broker)

  /** A reference: compute `sourceId` may perform `allows` on `target`, and
      sees the target under the name `id`. */
  datatype Reference = Reference(id: string, sourceId: string, target: RefTarget, allows: seq<Action>)
}
