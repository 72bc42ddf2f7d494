/**
 * Attribute keys of the AWS SDK 1.11 instrumentation. The aws.* keys are the
 * ones the key class declares; the Bedrock keys are referenced by the
 * extractors under their constant names only, so their spellings are the
 * ones the Bedrock client tests expect (agent, knowledge base, data source,
 * guardrail) and the gen_ai.* names the SDK 2.2 instrumentation uses.
 */
module AwsExperimentalAttributesV1 {
  import V2 = AwsExperimentalAttributesV2
  import opened NameLists

  const AwsAgent := "aws.agent"
  const AwsEndpoint := "aws.endpoint"
  const AwsBucketName := "aws.bucket.name"
  const AwsQueueUrl := "aws.queue.url"
  const AwsQueueName := "aws.queue.name"
  const AwsStreamName := "aws.stream.name"
  const AwsStreamConsumerName := "aws.stream.consumer_name"
  const AwsTableName := "aws.table.name"
  const AwsSecretArn := "aws.secretsmanager.secret_arn"
  const AwsStateMachineArn := "aws.stepfunctions.state_machine_arn"
  const AwsActivityArn := "aws.stepfunctions.activity_arn"
  const AwsRequestId := "aws.requestId"
  const AwsLambdaFunctionName := "aws.lambda.function_name"
  const AwsLambdaSourceMappingId := "aws.lambda.resource_mapping_id"

  const AwsAgentId := "aws.bedrock.agent.id"
  const AwsKnowledgeBaseId := "aws.bedrock.knowledge_base.id"
  const AwsDataSourceId := "aws.bedrock.data_source.id"
  const AwsGuardrailId := "aws.bedrock.guardrail.id"

  const AwsBedrockSystem := V2.GenAiSystem
  const AwsBedrockRuntimeModelId := V2.GenAiModel
  const AwsBedrockRuntimeMaxTokenCount := V2.GenAiMaxTokens
  const AwsBedrockRuntimeTemperature := V2.GenAiTemperature
  const AwsBedrockRuntimeTopP := V2.GenAiTopP
  const AwsBedrockFinishReasons := V2.GenAiFinishReason
  const AwsBedrockPromptTokens := V2.GenAiPromptTokens
  const AwsBedrockCompletionTokens := V2.GenAiCompletionTokens

  /** The keys an extractor of this module writes, aws.* first. */
  const Keys: seq<string> := [
    AwsAgent, AwsEndpoint, AwsBucketName, AwsQueueUrl, AwsQueueName, AwsStreamName,
    AwsTableName, AwsRequestId, AwsAgentId, AwsKnowledgeBaseId, AwsDataSourceId, AwsGuardrailId,
    AwsBedrockSystem, AwsBedrockRuntimeModelId, AwsBedrockRuntimeMaxTokenCount,
    AwsBedrockRuntimeTemperature, AwsBedrockRuntimeTopP, AwsBedrockFinishReasons,
    AwsBedrockPromptTokens, AwsBedrockCompletionTokens
  ]

  /** Every key an extractor writes is its own attribute: no two of them share a name. */
  lemma KeysDistinct()
    ensures Distinct(Keys)
  {
  }
}
