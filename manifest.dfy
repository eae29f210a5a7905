/** The pieces of the serverless manifest the adapter writes: function
    entries, their trigger events and IAM statements, and the generated
    CloudFormation blocks under `resources.Resources`. */
module Manifest {
  import opened Wrappers

  /** A manifest value that is either a plain string or a CloudFormation
      reference `{Ref: id}`. */
  datatype Value = Text(text: string) | Ref(id: string)

  /** An entry of a function's `events` list. */
  datatype Event =
      /** `{http: {path, method (httpMethod), cors, request?: {parameters: {paths}}}}` */
    | Http(path: string, httpMethod: string, cors: bool, pathParams: Option<map<string, bool>>)
      /** `{http: {name, path, method (httpMethod)}}`, the older generation's shape */
    | NamedHttp(name: string, path: string, httpMethod: string)
      /** `{sns: {arn, topicName}}` */
    | Sns(arn: Value, topicName: string)

  /** The IAM actions the mappers emit; `Text()` is the string written into
      the policy statement. */
  datatype IamAction =
    | PutItem | Query | Scan | GetItem | UpdateItem | DeleteItem
    | CreateTopic | Publish | Subscribe | SetTopicAttributes | DeleteTopic | Unsubscribe
  {
    function Text(): string {
      match this
      case PutItem => "dynamodb:PutItem"
      case Query => "dynamodb:Query"
      case Scan => "dynamodb:Scan"
      case GetItem => "dynamodb:GetItem"
      case UpdateItem => "dynamodb:UpdateItem"
      case DeleteItem => "dynamodb:DeleteItem"
      case CreateTopic => "sns:CreateTopic"
      case Publish => "sns:Publish"
      case Subscribe => "sns:Subscribe"
      case SetTopicAttributes => "sns:SetTopicAttributes"
      case DeleteTopic => "sns:DeleteTopic"
      case Unsubscribe => "sns:Unsubscribe"
    }
  }

  /** An entry of `iamRoleStatements`; `action` holds the statement's
      `Action` list, each element written as its `Text()`. */
  datatype Statement = Statement(effect: string, action: seq<IamAction>, resource: Value)

  datatype FunctionEntry = FunctionEntry(
    handler: string,
    name: string,
    description: string,
    runtime: string,
    environment: map<string, Value>,
    tags: map<string, string>,
    events: seq<Event>,
    /** absent until the first reference from this function */
    iamRoleStatements: Option<seq<Statement>>)

  /** The statements of a function, with an absent list read as empty. */
  function Statements(f: FunctionEntry): seq<Statement> {
    if f.iamRoleStatements.Some? then f.iamRoleStatements.value else []
  }

  datatype AttributeDefinition = AttributeDefinition(attributeName: string, attributeType: string)

  datatype KeySchemaElement = KeySchemaElement(attributeName: string, keyType: string)

  /** A block of `resources.Resources`. */
  datatype CfnResource =
    | Table(tableName: string, billingMode: string,
            attributeDefinitions: seq<AttributeDefinition>, keySchema: seq<KeySchemaElement>)
    | Topic(displayName: string, topicName: string)
  {
    /** The block's `Type` field. */
    function Type(): string {
      match this
      case Table(_, _, _, _) => "AWS::DynamoDB::Table"
      case Topic(_, _) => "AWS::SNS::Topic"
    }
  }

  /** The service-qualified name of a block: `${self:service}-` before it
      and `-${opt:stage, self:provider.stage}` after it. */
  const ServicePrefix := "${self:service}-"
  const StageSuffix := "-${opt:stage, self:provider.stage}"

  /** A variable of the provider environment is written
      `${self:provider.environment.<name>}`. */
  const EnvironmentPrefix := "${self:provider.environment."

  /** The ARN of a DynamoDB table of the deployment's region, up to the
      table's name. */
  const TableArnPrefix := "arn:aws:dynamodb:${opt:region, self:provider.region}:*:table/"

  const PayPerRequest := "PAY_PER_REQUEST"
}
