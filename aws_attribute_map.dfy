/**
 * AwsAttributeMap: the two fixed tables that classify a Bedrock agent
 * request or response class name into the resource kind whose id it carries.
 */
module AwsAttributeMap {
  import opened Outcomes
  import opened NameLists
  import opened Collectors
  import opened AwsResourceType
  import opened BedrockAgentOperations

  /** The puts of the static block into the request map, in order. */
  const RequestPuts: seq<(string, ResourceType)> := [
    ("CreateAgentActionGroupRequest", AgentType),
    ("CreateAgentAliasRequest", AgentType),
    ("DeleteAgentActionGroupRequest", AgentType),
    ("DeleteAgentAliasRequest", AgentType),
    ("DeleteAgentRequest", AgentType),
    ("DeleteAgentVersionRequest", AgentType),
    ("GetAgentActionGroupRequest", AgentType),
    ("GetAgentAliasRequest", AgentType),
    ("GetAgentRequest", AgentType),
    ("GetAgentVersionRequest", AgentType),
    ("ListAgentActionGroupsRequest", AgentType),
    ("ListAgentAliasesRequest", AgentType),
    ("ListAgentKnowledgeBasesRequest", AgentType),
    ("ListAgentVersionsRequest", AgentType),
    ("PrepareAgentRequest", AgentType),
    ("UpdateAgentActionGroupRequest", AgentType),
    ("UpdateAgentAliasRequest", AgentType),
    ("UpdateAgentRequest", AgentType),
    ("DeleteDataSourceRequest", DataSourceType),
    ("GetDataSourceRequest", DataSourceType),
    ("UpdateDataSourceRequest", DataSourceType),
    ("AssociateAgentKnowledgeBaseRequest", KnowledgeBaseType),
    ("CreateDataSourceRequest", KnowledgeBaseType),
    ("DeleteKnowledgeBaseRequest", KnowledgeBaseType),
    ("DisassociateAgentKnowledgeBaseRequest", KnowledgeBaseType),
    ("GetAgentKnowledgeBaseRequest", KnowledgeBaseType),
    ("GetKnowledgeBaseRequest", KnowledgeBaseType),
    ("ListDataSourcesRequest", KnowledgeBaseType),
    ("UpdateAgentKnowledgeBaseRequest", KnowledgeBaseType)
  ]

  /** The puts of the static block into the response map, in order. */
  const ResponsePuts: seq<(string, ResourceType)> := [
    ("DeleteAgentAliasResult", AgentType),
    ("DeleteAgentResult", AgentType),
    ("DeleteAgentVersionResult", AgentType),
    ("PrepareAgentResult", AgentType),
    ("DeleteDataSourceResult", DataSourceType),
    ("DeleteKnowledgeBaseResult", KnowledgeBaseType)
  ]

  /** BEDROCK_REQUEST_MAP once the static block has run; nothing writes it afterwards. */
  const RequestMap: map<string, ResourceType> := PutAll(RequestPuts)

  /** BEDROCK_RESPONSE_MAP once the static block has run. */
  const ResponseMap: map<string, ResourceType> := PutAll(ResponsePuts)

  /** getRequestType: the kind of a request class name, or null when it is not in the table. */
  function GetRequestType(name: string): (r: Option<ResourceType>)
    ensures r.Some? <==> exists i :: 0 <= i < |RequestPuts| && RequestPuts[i].0 == name
  {
    if name in RequestMap then Some(RequestMap[name]) else None
  }

  /** getReponseType: the kind of a response class name, or null when it is not in the table. */
  function GetResponseType(name: string): (r: Option<ResourceType>)
    ensures r.Some? <==> exists i :: 0 <= i < |ResponsePuts| && ResponsePuts[i].0 == name
  {
    if name in ResponseMap then Some(ResponseMap[name]) else None
  }

  /** The request table lists each operation's request names with that operation's kind. */
  lemma RequestPutsFollowOperations()
    ensures RequestPuts == Tag(AgentRequests, AgentType) + Tag(DataSourceRequests, DataSourceType)
                           + Tag(KnowledgeBaseRequests, KnowledgeBaseType)
  {
  }

  /** The list an operation of each kind contributes to a table built from the three lists. */
  function Listing(t: ResourceType, agent: seq<string>, source: seq<string>, base: seq<string>): seq<string> {
    match t
    case AgentType => agent
    case DataSourceType => source
    case KnowledgeBaseType => base
  }

  /** Putting three disjoint tagged lists gives each name the kind of the list holding it. */
  lemma TaggedTableLookup(agent: seq<string>, source: seq<string>, base: seq<string>, name: string, t: ResourceType)
    requires forall x :: x in agent ==> x !in source && x !in base
    requires forall x :: x in source ==> x !in base
    ensures var m := PutAll(Tag(agent, AgentType) + Tag(source, DataSourceType) + Tag(base, KnowledgeBaseType));
      name in m && m[name] == t <==> name in Listing(t, agent, source, base)
  {
    var puts := Tag(agent, AgentType) + Tag(source, DataSourceType) + Tag(base, KnowledgeBaseType);
    TagMembers(agent, AgentType);
    TagMembers(source, DataSourceType);
    TagMembers(base, KnowledgeBaseType);
    assert forall e :: e in puts <==> e in Tag(agent, AgentType) || e in Tag(source, DataSourceType) || e in Tag(base, KnowledgeBaseType);
    if name in Listing(t, agent, source, base) {
      assert (name, t) in puts;
      PutAllUniform(puts, name, t);
    }
    if name in PutAll(puts) {
      var e :| e in puts && e.0 == name;
      PutAllUniform(puts, name, e.1);
    }
  }

  /**
   * A request name maps to a kind exactly when the operation of that kind
   * lists it: the table and the operations' request lists agree entry for entry.
   */
  lemma RequestTypeIsTheListingOperation(name: string, t: ResourceType)
    ensures GetRequestType(name) == Some(t) <==> name in OperationFor(t).RequestClassNames()
  {
    RequestPutsFollowOperations();
    RequestNamesDistinct();
    DistinctParts(KnowledgeBaseRequests + DataSourceRequests, AgentRequests);
    DistinctParts(KnowledgeBaseRequests, DataSourceRequests);
    TaggedTableLookup(AgentRequests, DataSourceRequests, KnowledgeBaseRequests, name, t);
  }

  /** No response name is put twice. */
  lemma ResponseKeysDistinct()
    ensures DistinctKeys(ResponsePuts)
  {
  }

  /** Every response name the table maps is one the operation of its kind lists. */
  lemma ResponseTypeWithinListingOperation(name: string, t: ResourceType)
    requires GetResponseType(name) == Some(t)
    ensures name in OperationFor(t).ResponseClassNames()
  {
    ResponseKeysDistinct();
    var i :| 0 <= i < |ResponsePuts| && ResponsePuts[i].0 == name;
    assert ResponseMap[name] == ResponsePuts[i].1;
    ResponsePutListed(i);
  }

  lemma ResponsePutListed(i: nat)
    requires i < |ResponsePuts|
    ensures ResponsePuts[i].0 in OperationFor(ResponsePuts[i].1).ResponseClassNames()
  {
    if i == 0 { assert AgentResponses[3] == ResponsePuts[i].0; }
    else if i == 1 { assert AgentResponses[4] == ResponsePuts[i].0; }
    else if i == 2 { assert AgentResponses[5] == ResponsePuts[i].0; }
    else if i == 3 { assert AgentResponses[14] == ResponsePuts[i].0; }
    else if i == 4 { assert DataSourceResponses[0] == ResponsePuts[i].0; }
    else { assert KnowledgeBaseResponses[0] == ResponsePuts[i].0; }
  }

  /**
   * The response table is not the operations' response lists: a result the
   * agent operation lists, such as GetAgentResult, has no kind here.
   */
  lemma ResponseTableIsPartial()
    ensures "GetAgentResult" in AgentOperation.ResponseClassNames()
    ensures GetResponseType("GetAgentResult") == None
  {
    assert AgentResponses[8] == "GetAgentResult";
  }

  /** Two data source requests are classified as knowledge base requests, as the knowledge base operation lists them. */
  lemma DataSourceListingsAreKnowledgeBaseRequests()
    ensures GetRequestType("CreateDataSourceRequest") == Some(KnowledgeBaseType)
    ensures GetRequestType("ListDataSourcesRequest") == Some(KnowledgeBaseType)
  {
    assert KnowledgeBaseRequests[1] == "CreateDataSourceRequest";
    assert KnowledgeBaseRequests[6] == "ListDataSourcesRequest";
    RequestTypeIsTheListingOperation("CreateDataSourceRequest", KnowledgeBaseType);
    RequestTypeIsTheListingOperation("ListDataSourcesRequest", KnowledgeBaseType);
  }
}
