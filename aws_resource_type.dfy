/** The three Bedrock resource kinds, each pairing an id attribute with the getter that reads it. */
module AwsResourceType {
  import opened RequestAccess
  import K = AwsExperimentalAttributesV1

  datatype ResourceType = AgentType | DataSourceType | KnowledgeBaseType
  {
    /** getKeyAttribute(): the attribute the kind's id is written under. */
    function KeyAttribute(): string {
      match this
      case AgentType => K.AwsAgentId
      case DataSourceType => K.AwsDataSourceId
      case KnowledgeBaseType => K.AwsKnowledgeBaseId
    }

    /** getGetter(): the RequestAccess getter that reads the kind's id. */
    function Getter(): TextAccessor {
      match this
      case AgentType => AgentId
      case DataSourceType => DataSourceId
      case KnowledgeBaseType => KnowledgeBaseId
    }
  }

  /**
   * Each kind reads its own id and writes it under its own key: the key names
   * the same resource the getter reads, and different kinds share neither.
   */
  lemma KindsPairKeysWithGetters(t: ResourceType, u: ResourceType)
    ensures (t.KeyAttribute(), t.Getter()) in
      {(K.AwsAgentId, AgentId), (K.AwsDataSourceId, DataSourceId), (K.AwsKnowledgeBaseId, KnowledgeBaseId)}
    ensures t != u ==> t.KeyAttribute() != u.KeyAttribute() && t.Getter() != u.Getter()
  {
  }
}
