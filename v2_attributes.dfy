/** Attribute keys of the AWS SDK 2.2 instrumentation and the gen_ai key predicate. */
module AwsExperimentalAttributesV2 {
  import opened NameLists

  const AwsBucketName := "aws.bucket.name"
  const AwsQueueUrl := "aws.queue.url"
  const AwsQueueName := "aws.queue.name"
  const AwsStreamName := "aws.stream.name"
  const AwsTableName := "aws.table.name"
  const AwsBedrockGuardrailId := "aws.bedrock.guardrail_id"
  const AwsBedrockAgentId := "aws.bedrock.agent_id"
  const AwsBedrockDataSourceId := "aws.bedrock.datasource_id"
  const AwsBedrockKnowledgeBaseId := "aws.bedrock.knowledgebase_id"
  const GenAiFinishReason := "gen_ai.response.finish_reason"
  const GenAiPromptTokens := "gen_ai.usage.prompt_tokens"
  const GenAiCompletionTokens := "gen_ai.usage.completion_tokens"
  const GenAiModel := "gen_ai.request.model"
  const GenAiTemperature := "gen_ai.request.temperature"
  const GenAiTopP := "gen_ai.request.top_p"
  const GenAiMaxTokens := "gen_ai.request.max_tokens"
  const GenAiSystem := "gen_ai.system"

  /** The nine aws.* key constants, in declaration order. */
  const AwsKeys: seq<string> := [
    AwsBucketName, AwsQueueUrl, AwsQueueName, AwsStreamName, AwsTableName,
    AwsBedrockGuardrailId, AwsBedrockAgentId, AwsBedrockDataSourceId, AwsBedrockKnowledgeBaseId
  ]

  /** The eight gen_ai.* key constants, in declaration order. */
  const GenAiKeys: seq<string> := [
    GenAiFinishReason, GenAiPromptTokens, GenAiCompletionTokens, GenAiModel,
    GenAiTemperature, GenAiTopP, GenAiMaxTokens, GenAiSystem
  ]

  /** isGenAiAttribute: the key equals one of the eight gen_ai constants. */
  predicate IsGenAiAttribute(key: string) {
    || key == GenAiModel
    || key == GenAiFinishReason
    || key == GenAiPromptTokens
    || key == GenAiCompletionTokens
    || key == GenAiTemperature
    || key == GenAiTopP
    || key == GenAiMaxTokens
    || key == GenAiSystem
  }

  /** The seventeen key constants are pairwise distinct strings. */
  lemma KeysDistinct()
    ensures Distinct(AwsKeys + GenAiKeys)
  {
  }

  /** isGenAiAttribute holds for exactly the eight gen_ai constants, and these are eight different keys. */
  lemma GenAiAttributeIsExactlyTheGenAiKeys(key: string)
    ensures IsGenAiAttribute(key) <==> key in GenAiKeys
    ensures |set k | k in GenAiKeys| == 8
  {
    KeysDistinct();
    assert Distinct(GenAiKeys) by {
      forall i, j | 0 <= i < j < |GenAiKeys| ensures GenAiKeys[i] != GenAiKeys[j] {
        assert GenAiKeys[i] == (AwsKeys + GenAiKeys)[|AwsKeys| + i];
        assert GenAiKeys[j] == (AwsKeys + GenAiKeys)[|AwsKeys| + j];
      }
    }
    DistinctSetSize(GenAiKeys);
  }

  /** No aws.* key constant is a gen_ai attribute. */
  lemma AwsKeysAreNotGenAi()
    ensures forall k :: k in AwsKeys ==> !IsGenAiAttribute(k)
  {
    KeysDistinct();
    forall k | k in AwsKeys ensures !IsGenAiAttribute(k) {
      GenAiAttributeIsExactlyTheGenAiKeys(k);
      var i :| 0 <= i < |AwsKeys| && AwsKeys[i] == k;
      forall j | 0 <= j < |GenAiKeys| ensures GenAiKeys[j] != k {
        assert (AwsKeys + GenAiKeys)[i] == k;
        assert (AwsKeys + GenAiKeys)[|AwsKeys| + j] == GenAiKeys[j];
      }
    }
  }
}
