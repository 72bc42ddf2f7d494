/**
 * The fixed table of the AWS SDK 2.2 instrumentation: for each request category,
 * the (direction, attribute, field path) mappings, grouped by direction.
 * FieldMapping.java and AwsSdkRequest.java are not part of this model; a mapping's
 * path is its value split on "." and grouping keeps declaration order, as their
 * use here requires.
 */
module AwsSdkRequestType {
  import opened JavaText
  import opened AwsExperimentalAttributesV2

  /** FieldMapping.Type. */
  datatype Direction = Request | Response

  /**
   * A mapping from a field of the SDK object to a span attribute; `value` names
   * the field, or a path of fields separated by ".".
   */
  datatype FieldMapping = FieldMapping(direction: Direction, attribute: string, value: string)
  {
    /** getFields(): the path, the value split on ".". */
    function Fields(): seq<string> {
      Split(value, '.')
    }
  }

  /** FieldMapping.request(attribute, value). */
  function RequestMapping(attribute: string, value: string): FieldMapping {
    FieldMapping(Request, attribute, value)
  }

  /** FieldMapping.response(attribute, value). */
  function ResponseMapping(attribute: string, value: string): FieldMapping {
    FieldMapping(Response, attribute, value)
  }

  datatype RequestType =
    | S3 | SQS | Kinesis | DynamoDb | Sns | SecretsManager | StepFunction
    | Bedrock | BedrockAgentOperation | BedrockDataSourceOperation
    | BedrockKnowledgeBaseOperation | BedrockRuntime | Lambda

  /** The constructor arguments of each enum constant, in declaration order. */
  function Declared(t: RequestType): seq<FieldMapping> {
    match t
    case S3 => [RequestMapping(AwsBucketName, "Bucket")]
    case SQS => [RequestMapping(AwsQueueUrl, "QueueUrl"), RequestMapping(AwsQueueName, "QueueName")]
    case Kinesis => [
      RequestMapping(AwsStreamName, "StreamName"),
      RequestMapping("aws.stream.arn", "StreamARN"),
      RequestMapping("aws.stream.consumer_name", "ConsumerName")]
    case DynamoDb => [RequestMapping(AwsTableName, "TableName")]
    case Sns => [
      RequestMapping("messaging.destination.name", "TargetArn"),
      RequestMapping("messaging.destination.name", "TopicArn")]
    case SecretsManager => [ResponseMapping("aws.secretsmanager.secret_arn", "ARN")]
    case StepFunction => [
      RequestMapping("aws.stepfunctions.state_machine_arn", "stateMachineArn"),
      RequestMapping("aws.stepfunctions.activity_arn", "activityArn")]
    case Bedrock => [RequestMapping(AwsBedrockGuardrailId, "guardrailIdentifier")]
    case BedrockAgentOperation => [
      RequestMapping(AwsBedrockAgentId, "agentId"),
      ResponseMapping(AwsBedrockAgentId, "agentId")]
    case BedrockDataSourceOperation => [RequestMapping(AwsBedrockDataSourceId, "dataSourceId")]
    case BedrockKnowledgeBaseOperation => [RequestMapping(AwsBedrockKnowledgeBaseId, "knowledgeBaseId")]
    case BedrockRuntime => [
      RequestMapping(GenAiModel, "modelId"),
      RequestMapping(GenAiTemperature, "body"),
      RequestMapping(GenAiTopP, "body"),
      RequestMapping(GenAiMaxTokens, "body"),
      ResponseMapping(GenAiFinishReason, "body"),
      ResponseMapping(GenAiPromptTokens, "body"),
      ResponseMapping(GenAiCompletionTokens, "body")]
    case Lambda => [
      RequestMapping("aws.lambda.function_name", "FunctionName"),
      RequestMapping("aws.lambda.resource_mapping_id", "UUID")]
  }

  /** The mappings of one direction, in their original order. */
  function OfDirection(ms: seq<FieldMapping>, d: Direction): seq<FieldMapping> {
    if |ms| == 0 then []
    else (if ms[0].direction == d then [ms[0]] else []) + OfDirection(ms[1..], d)
  }

  /** The per-direction groups of a constant: an enum map with one (possibly empty) list per direction. */
  datatype Grouped = Grouped(requests: seq<FieldMapping>, responses: seq<FieldMapping>)
  {
    function Get(d: Direction): seq<FieldMapping> {
      match d
      case Request => requests
      case Response => responses
    }
  }

  /** FieldMapping.groupByType. */
  function GroupByType(ms: seq<FieldMapping>): Grouped {
    Grouped(OfDirection(ms, Request), OfDirection(ms, Response))
  }

  /** The grouped table of a constant, fixed once the constant is built. */
  function Groups(t: RequestType): Grouped {
    GroupByType(Declared(t))
  }

  /** AwsSdkRequestType.fields(type). */
  function Fields(t: RequestType, d: Direction): seq<FieldMapping> {
    Groups(t).Get(d)
  }

  /** A group holds exactly the mappings of its direction. */
  lemma {:induction false} OfDirectionMembers(ms: seq<FieldMapping>, d: Direction)
    ensures forall m :: m in OfDirection(ms, d) <==> m in ms && m.direction == d
  {
    if |ms| > 0 {
      OfDirectionMembers(ms[1..], d);
      assert ms == [ms[0]] + ms[1..];
    }
  }

  /** Grouping splits the mappings into two groups whose sizes add up, with nothing lost or invented. */
  lemma {:induction false} GroupingIsAPartition(ms: seq<FieldMapping>)
    ensures |GroupByType(ms).requests| + |GroupByType(ms).responses| == |ms|
    ensures forall m :: m in ms <==> m in GroupByType(ms).requests || m in GroupByType(ms).responses
  {
    OfDirectionMembers(ms, Request);
    OfDirectionMembers(ms, Response);
    if |ms| > 0 {
      GroupingIsAPartition(ms[1..]);
    }
  }

  /** fields(type) returns exactly the mappings of that direction, and the two directions cover the constant. */
  lemma FieldsAreTheDirectionGroup(t: RequestType, d: Direction)
    ensures forall m :: m in Fields(t, d) <==> m in Declared(t) && m.direction == d
    ensures |Fields(t, Request)| + |Fields(t, Response)| == |Declared(t)|
  {
    OfDirectionMembers(Declared(t), d);
    GroupingIsAPartition(Declared(t));
  }

  /** SNS maps both TargetArn and TopicArn to messaging.destination.name, and nothing on the response. */
  lemma SnsTargetsOneAttribute()
    ensures Fields(Sns, Request) == [
      FieldMapping(Request, "messaging.destination.name", "TargetArn"),
      FieldMapping(Request, "messaging.destination.name", "TopicArn")]
    ensures Fields(Sns, Response) == []
  {
  }

  /** Secrets Manager only reads the ARN of the response. */
  lemma SecretsManagerIsResponseOnly()
    ensures Fields(SecretsManager, Request) == []
    ensures Fields(SecretsManager, Response) == [FieldMapping(Response, "aws.secretsmanager.secret_arn", "ARN")]
  {
  }

  /** Agent operations read agentId in both directions into the same key. */
  lemma AgentIdBothDirections()
    ensures Fields(BedrockAgentOperation, Request) == [FieldMapping(Request, AwsBedrockAgentId, "agentId")]
    ensures Fields(BedrockAgentOperation, Response) == [FieldMapping(Response, AwsBedrockAgentId, "agentId")]
  {
  }

  /** The runtime reads modelId and three body-derived request keys, and three body-derived response keys. */
  lemma RuntimeMappings()
    ensures Fields(BedrockRuntime, Request) == [
      FieldMapping(Request, GenAiModel, "modelId"),
      FieldMapping(Request, GenAiTemperature, "body"),
      FieldMapping(Request, GenAiTopP, "body"),
      FieldMapping(Request, GenAiMaxTokens, "body")]
    ensures Fields(BedrockRuntime, Response) == [
      FieldMapping(Response, GenAiFinishReason, "body"),
      FieldMapping(Response, GenAiPromptTokens, "body"),
      FieldMapping(Response, GenAiCompletionTokens, "body")]
  {
  }

  /** No field name holds the path separator ".". */
  predicate DotFree(ms: seq<FieldMapping>) {
    forall m :: m in ms ==> '.' !in m.value
  }

  /** Every attribute is a gen_ai key. */
  predicate AllGenAi(ms: seq<FieldMapping>) {
    forall m :: m in ms ==> IsGenAiAttribute(m.attribute)
  }

  /** No attribute contains "gen_ai". */
  predicate NoGenAi(ms: seq<FieldMapping>) {
    forall m :: m in ms ==> !Contains(m.attribute, "gen_ai")
  }

  /**
   * A constant's mappings are well formed when no field name holds "." and its
   * attributes are either all gen_ai keys or all free of "gen_ai".
   */
  predicate EntriesOk(ms: seq<FieldMapping>) {
    DotFree(ms) && (AllGenAi(ms) || NoGenAi(ms))
  }

  /** Every mapping of the table names a single field: its path is the one-element list of its value. */
  lemma AllPathsAreSingleFields(t: RequestType)
    ensures forall m :: m in Declared(t) ==> m.Fields() == [m.value]
  {
    TableEntriesOk(t);
    assert DotFree(Declared(t));
    forall m | m in Declared(t) ensures m.Fields() == [m.value] {
      NoSeparatorSplitsToItself(m.value, '.');
    }
  }

  lemma NoSeparatorSplitsToItself(s: string, c: char)
    requires c !in s
    ensures Split(s, c) == [s]
  {
    assert forall j :: 0 <= j < |s| ==> s[j] != c by {
      forall j | 0 <= j < |s| ensures s[j] != c {
        assert s[j] in s;
      }
    }
  }

  /**
   * The routing test of the mapper (the attribute contains "gen_ai") agrees with
   * isGenAiAttribute on every attribute of the table.
   */
  lemma RoutingAgreesWithGenAiKeys(t: RequestType)
    ensures forall m :: m in Declared(t) ==> (Contains(m.attribute, "gen_ai") <==> IsGenAiAttribute(m.attribute))
  {
    TableEntriesOk(t);
    forall m | m in Declared(t) ensures Contains(m.attribute, "gen_ai") <==> IsGenAiAttribute(m.attribute) {
      GenAiKeysContainMarker(m.attribute);
    }
  }

  /** Every gen_ai key contains "gen_ai", so a text without it is not a gen_ai key. */
  lemma GenAiKeysContainMarker(key: string)
    ensures IsGenAiAttribute(key) ==> Contains(key, "gen_ai")
  {
    if key == GenAiModel { StartsWithGenAi(GenAiModel); }
    else if key == GenAiFinishReason { StartsWithGenAi(GenAiFinishReason); }
    else if key == GenAiPromptTokens { StartsWithGenAi(GenAiPromptTokens); }
    else if key == GenAiCompletionTokens { StartsWithGenAi(GenAiCompletionTokens); }
    else if key == GenAiTemperature { StartsWithGenAi(GenAiTemperature); }
    else if key == GenAiTopP { StartsWithGenAi(GenAiTopP); }
    else if key == GenAiMaxTokens { StartsWithGenAi(GenAiMaxTokens); }
    else if key == GenAiSystem { StartsWithGenAi(GenAiSystem); }
  }

  // One lemma per constant: checking all constants in one proof costs the
  // solver far more than the thirteen small proofs together.

  lemma TableEntriesOk(t: RequestType)
    ensures EntriesOk(Declared(t))
  {
    match t
    case S3 => S3EntriesOk();
    case SQS => SqsEntriesOk();
    case Kinesis => KinesisEntriesOk();
    case DynamoDb => DynamoDbEntriesOk();
    case Sns => SnsEntriesOk();
    case SecretsManager => SecretsManagerEntriesOk();
    case StepFunction => StepFunctionEntriesOk();
    case Bedrock => BedrockEntriesOk();
    case BedrockAgentOperation => AgentEntriesOk();
    case BedrockDataSourceOperation => DataSourceEntriesOk();
    case BedrockKnowledgeBaseOperation => KnowledgeBaseEntriesOk();
    case BedrockRuntime => RuntimeEntriesOk();
    case Lambda => LambdaEntriesOk();
  }

  lemma S3EntriesOk()
    ensures DotFree(Declared(S3))
    ensures NoGenAi(Declared(S3))
  {
    Lacks(AwsBucketName, '_');
  }

  lemma SqsEntriesOk()
    ensures DotFree(Declared(SQS))
    ensures NoGenAi(Declared(SQS))
  {
    Lacks(AwsQueueUrl, '_');
    Lacks(AwsQueueName, '_');
  }

  lemma KinesisEntriesOk()
    ensures DotFree(Declared(Kinesis))
    ensures NoGenAi(Declared(Kinesis))
  {
    KinesisDotFree();
    KinesisRouting();
  }

  lemma KinesisDotFree()
    ensures DotFree(Declared(Kinesis))
  {
  }

  lemma KinesisRouting()
    ensures NoGenAi(Declared(Kinesis))
  {
    Lacks(AwsStreamName, '_');
    Lacks("aws.stream.arn", '_');
    Lacks("aws.stream.consumer_name", 'g');
  }

  lemma DynamoDbEntriesOk()
    ensures DotFree(Declared(DynamoDb))
    ensures NoGenAi(Declared(DynamoDb))
  {
    Lacks(AwsTableName, '_');
  }

  lemma SnsEntriesOk()
    ensures DotFree(Declared(Sns))
    ensures NoGenAi(Declared(Sns))
  {
    Lacks("messaging.destination.name", '_');
  }

  lemma SecretsManagerEntriesOk()
    ensures DotFree(Declared(SecretsManager))
    ensures NoGenAi(Declared(SecretsManager))
  {
    Lacks("aws.secretsmanager.secret_arn", 'i');
  }

  lemma StepFunctionEntriesOk()
    ensures DotFree(Declared(StepFunction))
    ensures NoGenAi(Declared(StepFunction))
  {
    StepFunctionDotFree();
    StepFunctionRouting();
  }

  lemma StepFunctionDotFree()
    ensures DotFree(Declared(StepFunction))
  {
  }

  lemma StepFunctionRouting()
    ensures NoGenAi(Declared(StepFunction))
  {
    Lacks("aws.stepfunctions.state_machine_arn", 'g');
    Lacks("aws.stepfunctions.activity_arn", 'g');
  }

  lemma BedrockEntriesOk()
    ensures DotFree(Declared(Bedrock))
    ensures NoGenAi(Declared(Bedrock))
  {
    Lacks(AwsBedrockGuardrailId, 'n');
  }

  lemma AgentEntriesOk()
    ensures DotFree(Declared(BedrockAgentOperation))
    ensures NoGenAi(Declared(BedrockAgentOperation))
  {
    LacksAround(AwsBedrockAgentId, 16, '_', 'g');
  }

  lemma DataSourceEntriesOk()
    ensures DotFree(Declared(BedrockDataSourceOperation))
    ensures NoGenAi(Declared(BedrockDataSourceOperation))
  {
    Lacks(AwsBedrockDataSourceId, 'g');
  }

  lemma KnowledgeBaseEntriesOk()
    ensures DotFree(Declared(BedrockKnowledgeBaseOperation))
    ensures NoGenAi(Declared(BedrockKnowledgeBaseOperation))
  {
    KnowledgeBaseDotFree();
    KnowledgeBaseRouting();
  }

  lemma KnowledgeBaseDotFree()
    ensures DotFree(Declared(BedrockKnowledgeBaseOperation))
  {
  }

  lemma KnowledgeBaseRouting()
    ensures NoGenAi(Declared(BedrockKnowledgeBaseOperation))
  {
    LacksAround(AwsBedrockKnowledgeBaseId, 23, '_', 'g');
  }

  lemma RuntimeEntriesOk()
    ensures DotFree(Declared(BedrockRuntime))
    ensures AllGenAi(Declared(BedrockRuntime))
  {
    RuntimeDotFree();
    RuntimeRouting();
  }

  lemma RuntimeDotFree()
    ensures DotFree(Declared(BedrockRuntime))
  {
  }

  lemma RuntimeRouting()
    ensures AllGenAi(Declared(BedrockRuntime))
  {
  }

  lemma LambdaEntriesOk()
    ensures DotFree(Declared(Lambda))
    ensures NoGenAi(Declared(Lambda))
  {
    LambdaDotFree();
    LambdaRouting();
  }

  lemma LambdaDotFree()
    ensures DotFree(Declared(Lambda))
  {
  }

  lemma LambdaRouting()
    ensures NoGenAi(Declared(Lambda))
  {
    Lacks("aws.lambda.function_name", 'g');
    LacksAround("aws.lambda.resource_mapping_id", 23, 'g', 'e');
  }

  lemma StartsWithGenAi(a: string)
    requires |a| >= 6 && a[..6] == "gen_ai"
    ensures Contains(a, "gen_ai")
  {
    assert OccursAt(a, "gen_ai", 0);
  }

  /** A text that lacks one of the characters of "gen_ai" does not contain it. */
  lemma Lacks(s: string, c: char)
    requires c in "gen_ai" && c !in s
    ensures !Contains(s, "gen_ai")
  {
    MissingCharacterNotContained(s, "gen_ai", c);
  }

  /**
   * A text whose character at `p` is not in "gen_ai", and which lacks `c1` before
   * `p` and `c2` after it, does not contain "gen_ai".
   */
  lemma LacksAround(s: string, p: nat, c1: char, c2: char)
    requires p < |s| && s[p] !in "gen_ai"
    requires c1 in "gen_ai" && c1 !in s[..p]
    requires c2 in "gen_ai" && c2 !in s[p + 1..]
    ensures !Contains(s, "gen_ai")
  {
    OccurrenceAvoids(s, "gen_ai", p);
    MissingCharacterNotContained(s[..p], "gen_ai", c1);
    MissingCharacterNotContained(s[p + 1..], "gen_ai", c2);
  }
}
