/**
 * The three Bedrock agent operation classes: each lists the request and
 * response class names it handles and, at start and at end, records the id
 * of its resource kind read from the request or the response.
 */
module BedrockAgentOperations {
  import opened Outcomes
  import opened RequestAccess
  import opened AwsResourceType
  import opened Attributes
  import opened NameLists

  datatype Operation = KnowledgeBaseOperation | DataSourceOperation | AgentOperation
  {
    /** The kind whose id the operation records. */
    function Kind(): ResourceType {
      match this
      case KnowledgeBaseOperation => KnowledgeBaseType
      case DataSourceOperation => DataSourceType
      case AgentOperation => AgentType
    }

    /** requestClassNames(). */
    function RequestClassNames(): seq<string> {
      match this
      case KnowledgeBaseOperation => KnowledgeBaseRequests
      case DataSourceOperation => DataSourceRequests
      case AgentOperation => AgentRequests
    }

    /** responseClassNames(). */
    function ResponseClassNames(): seq<string> {
      match this
      case KnowledgeBaseOperation => KnowledgeBaseResponses
      case DataSourceOperation => DataSourceResponses
      case AgentOperation => AgentResponses
    }
  }

  /** The operation class that records the ids of a resource kind. */
  function OperationFor(t: ResourceType): (op: Operation)
    ensures op.Kind() == t
  {
    match t
    case KnowledgeBaseType => KnowledgeBaseOperation
    case DataSourceType => DataSourceOperation
    case AgentType => AgentOperation
  }

  const AgentRequests: seq<string> := [
    "CreateAgentActionGroupRequest",
    "CreateAgentAliasRequest",
    "DeleteAgentActionGroupRequest",
    "DeleteAgentAliasRequest",
    "DeleteAgentRequest",
    "DeleteAgentVersionRequest",
    "GetAgentActionGroupRequest",
    "GetAgentAliasRequest",
    "GetAgentRequest",
    "GetAgentVersionRequest",
    "ListAgentActionGroupsRequest",
    "ListAgentAliasesRequest",
    "ListAgentKnowledgeBasesRequest",
    "ListAgentVersionsRequest",
    "PrepareAgentRequest",
    "UpdateAgentActionGroupRequest",
    "UpdateAgentAliasRequest",
    "UpdateAgentRequest"
  ]

  const AgentResponses: seq<string> := [
    "CreateAgentActionGroupResult",
    "CreateAgentAliasResult",
    "DeleteAgentActionGroupResult",
    "DeleteAgentAliasResult",
    "DeleteAgentResult",
    "DeleteAgentVersionResult",
    "GetAgentActionGroupResult",
    "GetAgentAliasResult",
    "GetAgentResult",
    "GetAgentVersionResult",
    "ListAgentActionGroupsResult",
    "ListAgentAliasesResult",
    "ListAgentKnowledgeBasesResult",
    "ListAgentVersionsResult",
    "PrepareAgentResult",
    "UpdateAgentActionGroupResult",
    "UpdateAgentAliasResult",
    "UpdateAgentResult"
  ]

  const KnowledgeBaseRequests: seq<string> := [
    "AssociateAgentKnowledgeBaseRequest",
    "CreateDataSourceRequest",
    "DeleteKnowledgeBaseRequest",
    "DisassociateAgentKnowledgeBaseRequest",
    "GetAgentKnowledgeBaseRequest",
    "GetKnowledgeBaseRequest",
    "ListDataSourcesRequest",
    "UpdateAgentKnowledgeBaseRequest"
  ]

  const KnowledgeBaseResponses: seq<string> := ["DeleteKnowledgeBaseResult"]

  const DataSourceRequests: seq<string> := [
    "DeleteDataSourceRequest",
    "GetDataSourceRequest",
    "UpdateDataSourceRequest"
  ]

  const DataSourceResponses: seq<string> := [
    "DeleteDataSourceResult",
    "GetDataSourceResult",
    "UpdateDataSourceResult"
  ]

  predicate EndsWithRequest(name: string) {
    |name| >= 7 && name[|name| - 7..] == "Request"
  }

  /** The response class name of a request class name: "Request" replaced by "Result". */
  function ResultName(name: string): (r: string)
    requires EndsWithRequest(name)
    ensures |r| == |name| - 1
  {
    name[..|name| - 7] + "Result"
  }

  /** Mirrors(requests, responses) at the indexes lo to hi. */
  predicate MirrorsAt(requests: seq<string>, responses: seq<string>, lo: nat, hi: nat) {
    forall i :: lo <= i < hi && i < |requests| && i < |responses| ==>
      EndsWithRequest(requests[i]) && responses[i] == ResultName(requests[i])
  }

  /** The responses of an operation mirror its requests one to one and in order. */
  predicate Mirrors(requests: seq<string>, responses: seq<string>) {
    |requests| == |responses| && MirrorsAt(requests, responses, 0, |requests|)
  }

  /** Every request class name of the three operations, in the order the registry reads them. */
  const RequestNames: seq<string> := KnowledgeBaseRequests + DataSourceRequests + AgentRequests

  /** Every response class name of the three operations, in the same order. */
  const ResponseNames: seq<string> := KnowledgeBaseResponses + DataSourceResponses + AgentResponses

  /** No request class name is listed twice, within an operation or across operations. */
  lemma RequestNamesDistinct()
    ensures Distinct(RequestNames)
  {
    RequestNamesApart00();
    RequestNamesApart01();
    RequestNamesApart02();
    RequestNamesApart03();
    RequestNamesApart04();
    RequestNamesApart11();
    RequestNamesApart12();
    RequestNamesApart13();
    RequestNamesApart14();
    RequestNamesApart22();
    RequestNamesApart23();
    RequestNamesApart24();
    RequestNamesApart33();
    RequestNamesApart34();
    RequestNamesApart44();
    DistinctBySixes(RequestNames);
  }

  /** No response class name is listed twice, within an operation or across operations. */
  lemma ResponseNamesDistinct()
    ensures Distinct(ResponseNames)
  {
    ResponseNamesApart00();
    ResponseNamesApart01();
    ResponseNamesApart02();
    ResponseNamesApart03();
    ResponseNamesApart11();
    ResponseNamesApart12();
    ResponseNamesApart13();
    ResponseNamesApart22();
    ResponseNamesApart23();
    ResponseNamesApart33();
    DistinctBySixes(ResponseNames);
  }

  lemma RequestNamesApart00() ensures Apart(RequestNames, 0, 0) {}
  lemma RequestNamesApart01() ensures Apart(RequestNames, 0, 6) {}
  lemma RequestNamesApart02() ensures Apart(RequestNames, 0, 12) {}
  lemma RequestNamesApart03() ensures Apart(RequestNames, 0, 18) {}
  lemma RequestNamesApart04() ensures Apart(RequestNames, 0, 24) {}
  lemma RequestNamesApart11() ensures Apart(RequestNames, 6, 6) {}
  lemma RequestNamesApart12() ensures Apart(RequestNames, 6, 12) {}
  lemma RequestNamesApart13() ensures Apart(RequestNames, 6, 18) {}
  lemma RequestNamesApart14() ensures Apart(RequestNames, 6, 24) {}
  lemma RequestNamesApart22() ensures Apart(RequestNames, 12, 12) {}
  lemma RequestNamesApart23() ensures Apart(RequestNames, 12, 18) {}
  lemma RequestNamesApart24() ensures Apart(RequestNames, 12, 24) {}
  lemma RequestNamesApart33() ensures Apart(RequestNames, 18, 18) {}
  lemma RequestNamesApart34() ensures Apart(RequestNames, 18, 24) {}
  lemma RequestNamesApart44() ensures Apart(RequestNames, 24, 24) {}

  lemma ResponseNamesApart00() ensures Apart(ResponseNames, 0, 0) {}
  lemma ResponseNamesApart01() ensures Apart(ResponseNames, 0, 6) {}
  lemma ResponseNamesApart02() ensures Apart(ResponseNames, 0, 12) {}
  lemma ResponseNamesApart03() ensures Apart(ResponseNames, 0, 18) {}
  lemma ResponseNamesApart11() ensures Apart(ResponseNames, 6, 6) {}
  lemma ResponseNamesApart12() ensures Apart(ResponseNames, 6, 12) {}
  lemma ResponseNamesApart13() ensures Apart(ResponseNames, 6, 18) {}
  lemma ResponseNamesApart22() ensures Apart(ResponseNames, 12, 12) {}
  lemma ResponseNamesApart23() ensures Apart(ResponseNames, 12, 18) {}
  lemma ResponseNamesApart33() ensures Apart(ResponseNames, 18, 18) {}

  // One request at a time: the agent lists are long enough that a wider range strains the solver.
  lemma AgentMirror0() ensures MirrorsAt(AgentRequests, AgentResponses, 0, 1) {}
  lemma AgentMirror1() ensures MirrorsAt(AgentRequests, AgentResponses, 1, 2) {}
  lemma AgentMirror2() ensures MirrorsAt(AgentRequests, AgentResponses, 2, 3) {}
  lemma AgentMirror3() ensures MirrorsAt(AgentRequests, AgentResponses, 3, 4) {}
  lemma AgentMirror4() ensures MirrorsAt(AgentRequests, AgentResponses, 4, 5) {}
  lemma AgentMirror5() ensures MirrorsAt(AgentRequests, AgentResponses, 5, 6) {}
  lemma AgentMirror6() ensures MirrorsAt(AgentRequests, AgentResponses, 6, 7) {}
  lemma AgentMirror7() ensures MirrorsAt(AgentRequests, AgentResponses, 7, 8) {}
  lemma AgentMirror8() ensures MirrorsAt(AgentRequests, AgentResponses, 8, 9) {}
  lemma AgentMirror9() ensures MirrorsAt(AgentRequests, AgentResponses, 9, 10) {}
  lemma AgentMirror10() ensures MirrorsAt(AgentRequests, AgentResponses, 10, 11) {}
  lemma AgentMirror11() ensures MirrorsAt(AgentRequests, AgentResponses, 11, 12) {}
  lemma AgentMirror12() ensures MirrorsAt(AgentRequests, AgentResponses, 12, 13) {}
  lemma AgentMirror13() ensures MirrorsAt(AgentRequests, AgentResponses, 13, 14) {}
  lemma AgentMirror14() ensures MirrorsAt(AgentRequests, AgentResponses, 14, 15) {}
  lemma AgentMirror15() ensures MirrorsAt(AgentRequests, AgentResponses, 15, 16) {}
  lemma AgentMirror16() ensures MirrorsAt(AgentRequests, AgentResponses, 16, 17) {}
  lemma AgentMirror17() ensures MirrorsAt(AgentRequests, AgentResponses, 17, 18) {}

  /** The agent operation handles 18 distinct request names, and its responses mirror them. */
  lemma AgentNames()
    ensures |AgentRequests| == 18 && Distinct(AgentRequests)
    ensures Mirrors(AgentRequests, AgentResponses)
  {
    RequestNamesDistinct();
    DistinctParts(KnowledgeBaseRequests + DataSourceRequests, AgentRequests);
    AgentMirror0();
    AgentMirror1();
    AgentMirror2();
    AgentMirror3();
    AgentMirror4();
    AgentMirror5();
    AgentMirror6();
    AgentMirror7();
    AgentMirror8();
    AgentMirror9();
    AgentMirror10();
    AgentMirror11();
    AgentMirror12();
    AgentMirror13();
    AgentMirror14();
    AgentMirror15();
    AgentMirror16();
    AgentMirror17();
  }

  /** The data-source operation handles exactly Delete/Get/UpdateDataSourceRequest, and its responses mirror them. */
  lemma DataSourceNames()
    ensures DataSourceRequests == ["DeleteDataSourceRequest", "GetDataSourceRequest", "UpdateDataSourceRequest"]
    ensures Mirrors(DataSourceRequests, DataSourceResponses)
  {
  }

  /**
   * The knowledge-base operation handles 8 distinct request names, two of
   * them data-source requests, and a single response name.
   */
  lemma KnowledgeBaseNames()
    ensures |KnowledgeBaseRequests| == 8 && Distinct(KnowledgeBaseRequests)
    ensures "CreateDataSourceRequest" in KnowledgeBaseRequests && "ListDataSourcesRequest" in KnowledgeBaseRequests
    ensures KnowledgeBaseResponses == ["DeleteKnowledgeBaseResult"]
  {
    RequestNamesDistinct();
    DistinctParts(KnowledgeBaseRequests + DataSourceRequests, AgentRequests);
    DistinctParts(KnowledgeBaseRequests, DataSourceRequests);
  }

  /** What onStart and onEnd do: setAttribute with the kind's key and getter, skipping a null id. */
  function Recorded(op: Operation, attrs: Attrs, obj: JavaObject): (r: Attrs)
    ensures forall k :: k != op.Kind().KeyAttribute() ==> (k in r <==> k in attrs) && (k in r ==> r[k] == attrs[k])
    ensures op.Kind().KeyAttribute() in r <==> op.Kind().KeyAttribute() in attrs || Invoke(obj, op.Kind().Getter()).Some?
    ensures Invoke(obj, op.Kind().Getter()).Some? ==> r[op.Kind().KeyAttribute()] == StrValue(Invoke(obj, op.Kind().Getter()).value)
  {
    PutText(attrs, op.Kind().KeyAttribute(), Invoke(obj, op.Kind().Getter()))
  }

  /** onStart (with the request) and onEnd (with the response) of an operation class. */
  method Record(op: Operation, attributes: AttributesBuilder, access: RequestAccessCache, obj: JavaObject)
    requires access.Valid()
    modifies attributes, access
    ensures access.Valid() && access.profiles == old(access.profiles)[obj.cls := Probe(obj.cls)]
    ensures attributes.attrs == Recorded(op, old(attributes.attrs), obj)
  {
    var t := op.Kind();
    var value := access.GetText(Some(obj), t.Getter());
    attributes.Put(t.KeyAttribute(), value.value);
  }
}
