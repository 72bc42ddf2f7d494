/**
 * AwsSdkExperimentalAttributesExtractor of the AWS SDK 1.11 instrumentation:
 * the aws.* attributes of every call (agent, endpoint, resource names, request
 * id) and the Bedrock ids, with agent calls classified by the request and
 * response tables of AwsAttributeMap. It keeps the service name of the latest
 * start in a field that the end hook reads.
 */
module ExperimentalExtraction {
  import opened Outcomes
  import opened Attributes
  import opened RequestAccess
  import opened AwsResourceType
  import opened AwsCalls
  import AwsAttributeMap
  import opened BedrockAgentOperations
  import K = AwsExperimentalAttributesV1

  const ComponentName := "java-aws-sdk"

  /** A setAttribute on a non-null object: the getter's value, nothing when it is null. */
  function SetText(attrs: Attrs, key: string, obj: JavaObject, a: TextAccessor): Attrs {
    PutText(attrs, key, Invoke(obj, a))
  }

  /** The five resource names every request is read for. */
  function ResourceNames(attrs: Attrs, orig: JavaObject): Attrs {
    var a := SetText(attrs, K.AwsBucketName, orig, BucketName);
    var b := SetText(a, K.AwsQueueUrl, orig, QueueUrl);
    var c := SetText(b, K.AwsQueueName, orig, QueueName);
    var d := SetText(c, K.AwsStreamName, orig, StreamName);
    SetText(d, K.AwsTableName, orig, TableName)
  }

  /** The Bedrock branch of onStart, chosen by the service name. */
  function BedrockStart(attrs: Attrs, service: Service, orig: JavaObject): Attrs {
    match service
    case Bedrock => SetText(attrs, K.AwsGuardrailId, orig, GuardrailId)
    case BedrockAgent =>
      (match AwsAttributeMap.GetRequestType(orig.cls.simpleName)
       case None => attrs
       case Some(t) => SetText(attrs, t.KeyAttribute(), orig, t.Getter()))
    case BedrockAgentRuntime =>
      SetText(SetText(attrs, K.AwsAgentId, orig, AgentId), K.AwsKnowledgeBaseId, orig, KnowledgeBaseId)
    case BedrockRuntime =>
      if orig.cls.simpleName != "InvokeModelRequest" then attrs
      else PutText(attrs[K.AwsBedrockSystem := StrValue("aws_bedrock")], K.AwsBedrockRuntimeModelId, Invoke(orig, ModelId))
    case OtherService => attrs
  }

  /** What onStart leaves behind: the attributes, the exception it throws, and whether it stored the service name. */
  datatype StartEffect = StartEffect(attrs: Attrs, fault: Option<Fault>, storedService: bool)

  /** onStart: agent and endpoint first (a null endpoint throws before the service name is stored), then the rest. */
  function StartSpec(attrs: Attrs, request: AwsRequest): StartEffect {
    var a := attrs[K.AwsAgent := StrValue(ComponentName)];
    match request.endpoint
    case None => StartEffect(a, Some(NullPointer), false)
    case Some(endpoint) =>
      var b := a[K.AwsEndpoint := StrValue(endpoint)];
      match request.originalRequest
      case None => StartEffect(b, Some(NullPointer), true)
      case Some(orig) =>
        var c := ResourceNames(b, orig);
        match request.serviceName
        case None => StartEffect(c, Some(NullPointer), true)
        case Some(service) => StartEffect(BedrockStart(c, ServiceOf(service), orig), None, true)
  }

  /** The request id of an AmazonWebServiceResponse, when it has one. */
  function RequestIdOf(attrs: Attrs, obj: Option<JavaObject>): Attrs {
    if obj.Some? && obj.value.requestId.Some? then PutText(attrs, K.AwsRequestId, obj.value.requestId.value) else attrs
  }

  /** onEnd, from the service name the latest onStart stored. */
  function EndSpec(attrs: Attrs, serviceName: Option<string>, response: Option<AwsResponse>): Outcome {
    match response
    case None => Outcome(attrs, None)
    case Some(resp) =>
      var a := RequestIdOf(attrs, resp.awsResponse);
      match resp.awsResponse
      case None => Outcome(a, None)
      case Some(obj) =>
        match serviceName
        case None => Outcome(a, Some(NullPointer))
        case Some(service) =>
          match ServiceOf(service)
          case Bedrock => Outcome(SetText(a, K.AwsGuardrailId, obj, GuardrailId), None)
          case BedrockAgent =>
            (match AwsAttributeMap.GetResponseType(obj.cls.simpleName)
             case None => Outcome(a, None)
             case Some(t) => Outcome(SetText(a, t.KeyAttribute(), obj, t.Getter()), None))
          case BedrockAgentRuntime =>
            Outcome(SetText(SetText(a, K.AwsAgentId, obj, AgentId), K.AwsKnowledgeBaseId, obj, KnowledgeBaseId), None)
          case _ => Outcome(a, None)
  }

  class AwsSdkExperimentalAttributesExtractor {
    var serviceName: Option<string>
    /** The accessor cache of RequestAccess, shared by every getter call. */
    const access: RequestAccessCache

    constructor(access: RequestAccessCache)
      ensures serviceName == None && this.access == access
    {
      serviceName := None;
      this.access := access;
    }

    /** setAttribute with a RequestAccess getter. */
    method Set(attributes: AttributesBuilder, key: string, obj: JavaObject, a: TextAccessor)
      requires access.Valid()
      modifies attributes, access
      ensures access.Valid()
      ensures attributes.attrs == SetText(old(attributes.attrs), key, obj, a)
    {
      var value := access.GetText(Some(obj), a);
      attributes.Put(key, value.value);
    }

    method OnStart(attributes: AttributesBuilder, request: AwsRequest) returns (fault: Option<Fault>)
      requires access.Valid()
      modifies this, attributes, access
      ensures access.Valid()
      ensures var e := StartSpec(old(attributes.attrs), request);
        attributes.attrs == e.attrs && fault == e.fault
        && serviceName == (if e.storedService then request.serviceName else old(serviceName))
    {
      attributes.Put(K.AwsAgent, Some(ComponentName));
      if request.endpoint.None? {
        return Some(NullPointer);
      }
      attributes.Put(K.AwsEndpoint, request.endpoint);
      serviceName := request.serviceName;
      if request.originalRequest.None? {
        return Some(NullPointer);
      }
      var orig := request.originalRequest.value;
      SetResourceNames(attributes, orig);
      if serviceName.None? {
        return Some(NullPointer);
      }
      SetBedrockIds(attributes, ServiceOf(serviceName.value), orig);
      fault := None;
    }

    /** The five unguarded resource-name getters of onStart. */
    method SetResourceNames(attributes: AttributesBuilder, orig: JavaObject)
      requires access.Valid()
      modifies attributes, access
      ensures access.Valid()
      ensures attributes.attrs == ResourceNames(old(attributes.attrs), orig)
    {
      Set(attributes, K.AwsBucketName, orig, BucketName);
      Set(attributes, K.AwsQueueUrl, orig, QueueUrl);
      Set(attributes, K.AwsQueueName, orig, QueueName);
      Set(attributes, K.AwsStreamName, orig, StreamName);
      Set(attributes, K.AwsTableName, orig, TableName);
    }

    /** The service switch of onStart. */
    method SetBedrockIds(attributes: AttributesBuilder, service: Service, orig: JavaObject)
      requires access.Valid()
      modifies attributes, access
      ensures access.Valid()
      ensures attributes.attrs == BedrockStart(old(attributes.attrs), service, orig)
    {
      match service {
        case Bedrock =>
          Set(attributes, K.AwsGuardrailId, orig, GuardrailId);
        case BedrockAgent =>
          var resourceType := AwsAttributeMap.GetRequestType(orig.cls.simpleName);
          SetResourceId(attributes, resourceType, orig);
        case BedrockAgentRuntime =>
          Set(attributes, K.AwsAgentId, orig, AgentId);
          Set(attributes, K.AwsKnowledgeBaseId, orig, KnowledgeBaseId);
        case BedrockRuntime =>
          SetModel(attributes, orig);
        case OtherService =>
      }
    }

    /** The id attribute of the resource an agent call is classified as, when it is classified at all. */
    method SetResourceId(attributes: AttributesBuilder, resourceType: Option<ResourceType>, obj: JavaObject)
      requires access.Valid()
      modifies attributes, access
      ensures access.Valid()
      ensures attributes.attrs == match resourceType
        case None => old(attributes.attrs)
        case Some(t) => SetText(old(attributes.attrs), t.KeyAttribute(), obj, t.Getter())
    {
      if resourceType.Some? {
        Set(attributes, resourceType.value.KeyAttribute(), obj, resourceType.value.Getter());
      }
    }

    /** The runtime branch of onStart: system and model id, for InvokeModel only. */
    method SetModel(attributes: AttributesBuilder, orig: JavaObject)
      requires access.Valid()
      modifies attributes, access
      ensures access.Valid()
      ensures attributes.attrs == BedrockStart(old(attributes.attrs), BedrockRuntime, orig)
    {
      if orig.cls.simpleName == "InvokeModelRequest" {
        attributes.Put(K.AwsBedrockSystem, Some("aws_bedrock"));
        var modelId := access.GetText(Some(orig), ModelId);
        attributes.Put(K.AwsBedrockRuntimeModelId, modelId.value);
      }
    }

    method OnEnd(attributes: AttributesBuilder, response: Option<AwsResponse>) returns (fault: Option<Fault>)
      requires access.Valid()
      modifies attributes, access
      ensures access.Valid()
      ensures var o := EndSpec(old(attributes.attrs), serviceName, response);
        attributes.attrs == o.attrs && fault == o.fault
    {
      if response.None? {
        return None;
      }
      var awsResp := response.value.awsResponse;
      if awsResp.Some? && awsResp.value.requestId.Some? {
        attributes.Put(K.AwsRequestId, awsResp.value.requestId.value);
      }
      if awsResp.None? {
        return None;
      }
      var obj := awsResp.value;
      if serviceName.None? {
        return Some(NullPointer);
      }
      fault := None;
      match ServiceOf(serviceName.value) {
        case Bedrock =>
          Set(attributes, K.AwsGuardrailId, obj, GuardrailId);
        case BedrockAgent =>
          var resourceType := AwsAttributeMap.GetResponseType(obj.cls.simpleName);
          SetResourceId(attributes, resourceType, obj);
        case BedrockAgentRuntime =>
          Set(attributes, K.AwsAgentId, obj, AgentId);
          Set(attributes, K.AwsKnowledgeBaseId, obj, KnowledgeBaseId);
        case _ =>
      }
    }
  }

  /** The key every resource-id write of onStart and onEnd goes to: the Bedrock keys, never an aws.* key of the call itself. */
  lemma BedrockKeysAvoidCallKeys(t: ResourceType)
    ensures t.KeyAttribute() !in {K.AwsAgent, K.AwsEndpoint, K.AwsRequestId}
  {
  }

  /** `after` holds the component name exactly as `before` does. */
  predicate KeepsComponent(before: Attrs, after: Attrs) {
    (K.AwsAgent in after <==> K.AwsAgent in before)
    && (K.AwsAgent in before ==> after[K.AwsAgent] == before[K.AwsAgent])
  }

  /** Neither the resource names nor the service switch write the component name. */
  lemma StartWritesKeepComponent(attrs: Attrs, service: Service, orig: JavaObject)
    ensures KeepsComponent(attrs, ResourceNames(attrs, orig))
    ensures KeepsComponent(attrs, BedrockStart(attrs, service, orig))
  {
    ResourceNamesKeepComponent(attrs, orig);
    BedrockStartKeepsComponent(attrs, service, orig);
  }

  lemma ResourceNamesKeepComponent(attrs: Attrs, orig: JavaObject)
    ensures KeepsComponent(attrs, ResourceNames(attrs, orig))
  {
    var a := SetText(attrs, K.AwsBucketName, orig, BucketName);
    var b := SetText(a, K.AwsQueueUrl, orig, QueueUrl);
    var c := SetText(b, K.AwsQueueName, orig, QueueName);
    var d := SetText(c, K.AwsStreamName, orig, StreamName);
    assert KeepsComponent(attrs, a) && KeepsComponent(a, b) && KeepsComponent(b, c) && KeepsComponent(c, d);
  }

  lemma BedrockStartKeepsComponent(attrs: Attrs, service: Service, orig: JavaObject)
    ensures KeepsComponent(attrs, BedrockStart(attrs, service, orig))
  {
    if service == BedrockAgent {
      match AwsAttributeMap.GetRequestType(orig.cls.simpleName)
      case None =>
      case Some(t) => BedrockKeysAvoidCallKeys(t);
    } else if service == BedrockAgentRuntime {
      var a := SetText(attrs, K.AwsAgentId, orig, AgentId);
      assert KeepsComponent(attrs, a);
    }
  }

  /**
   * onStart throws exactly when it dereferences a null: the endpoint, the
   * original request or the service name. The service name is stored exactly
   * when the endpoint was there, and the component name is recorded whatever happens.
   */
  lemma StartFaultsAreNullDereferences(attrs: Attrs, request: AwsRequest)
    ensures var e := StartSpec(attrs, request);
      (e.fault.Some? <==> request.endpoint.None? || request.originalRequest.None? || request.serviceName.None?)
      && (e.fault.Some? ==> e.fault == Some(NullPointer))
      && (e.storedService <==> request.endpoint.Some?)
      && K.AwsAgent in e.attrs && e.attrs[K.AwsAgent] == StrValue(ComponentName)
  {
    var a := attrs[K.AwsAgent := StrValue(ComponentName)];
    if endpoint :| request.endpoint == Some(endpoint) {
      var b := a[K.AwsEndpoint := StrValue(endpoint)];
      if orig :| request.originalRequest == Some(orig) {
        var c := ResourceNames(b, orig);
        StartWritesKeepComponent(b, OtherService, orig);
        if service :| request.serviceName == Some(service) {
          StartWritesKeepComponent(c, ServiceOf(service), orig);
        }
      }
    }
  }

  /**
   * On the agent service, a request whose class an operation of kind `t`
   * lists gets that kind's id recorded under the kind's key, read by the
   * kind's getter; a class no operation lists gets no id at all.
   */
  lemma AgentRequestRecordsItsResourceId(attrs: Attrs, request: AwsRequest, orig: JavaObject, t: ResourceType)
    requires request.endpoint.Some? && request.originalRequest == Some(orig)
    requires request.serviceName == Some(BedrockAgentService)
    ensures var e := StartSpec(attrs, request);
      orig.cls.simpleName in OperationFor(t).RequestClassNames() ==>
        e.attrs == SetText(ResourceNames(attrs[K.AwsAgent := StrValue(ComponentName)][K.AwsEndpoint := StrValue(request.endpoint.value)], orig),
                           t.KeyAttribute(), orig, t.Getter())
  {
    if orig.cls.simpleName in OperationFor(t).RequestClassNames() {
      var c := ResourceNames(attrs[K.AwsAgent := StrValue(ComponentName)][K.AwsEndpoint := StrValue(request.endpoint.value)], orig);
      AgentStartRecordsId(c, orig, t);
      assert StartSpec(attrs, request).attrs == BedrockStart(c, ServiceOf(BedrockAgentService), orig);
    }
  }

  /** The agent branch of onStart records the id of the kind whose operation lists the request class. */
  lemma AgentStartRecordsId(c: Attrs, orig: JavaObject, t: ResourceType)
    requires orig.cls.simpleName in OperationFor(t).RequestClassNames()
    ensures BedrockStart(c, BedrockAgent, orig) == SetText(c, t.KeyAttribute(), orig, t.Getter())
  {
    AwsAttributeMap.RequestTypeIsTheListingOperation(orig.cls.simpleName, t);
  }

  /** On the agent service, a request of a class no operation lists keeps only the call and resource attributes. */
  lemma UnlistedAgentRequestRecordsNoId(attrs: Attrs, request: AwsRequest, orig: JavaObject)
    requires request.endpoint.Some? && request.originalRequest == Some(orig)
    requires request.serviceName == Some(BedrockAgentService)
    requires forall t: ResourceType :: orig.cls.simpleName !in OperationFor(t).RequestClassNames()
    ensures StartSpec(attrs, request)
      == StartEffect(ResourceNames(attrs[K.AwsAgent := StrValue(ComponentName)][K.AwsEndpoint := StrValue(request.endpoint.value)], orig), None, true)
  {
    match AwsAttributeMap.GetRequestType(orig.cls.simpleName)
    case None =>
    case Some(t) =>
      AwsAttributeMap.RequestTypeIsTheListingOperation(orig.cls.simpleName, t);
      assert false;
  }

  /** InvokeModel on the runtime service names the system "aws_bedrock", with the model id when the request has one. */
  lemma InvokeModelSystemName(attrs: Attrs, request: AwsRequest, orig: JavaObject)
    requires request.endpoint.Some? && request.originalRequest == Some(orig)
    requires request.serviceName == Some(BedrockRuntimeService) && orig.cls.simpleName == "InvokeModelRequest"
    ensures var e := StartSpec(attrs, request);
      K.AwsBedrockSystem in e.attrs && e.attrs[K.AwsBedrockSystem] == StrValue("aws_bedrock")
      && (Invoke(orig, ModelId).Some? ==>
            K.AwsBedrockRuntimeModelId in e.attrs && e.attrs[K.AwsBedrockRuntimeModelId] == StrValue(Invoke(orig, ModelId).value))
      && e.fault == None
  {
  }

  /**
   * onEnd records the request id of an AmazonWebServiceResponse whenever it
   * has one, whatever the service, and throws only when a response object
   * meets a null service name.
   */
  lemma EndRecordsRequestId(attrs: Attrs, serviceName: Option<string>, response: Option<AwsResponse>)
    ensures var o := EndSpec(attrs, serviceName, response);
      (response.None? ==> o == Outcome(attrs, None))
      && (o.fault.Some? <==> response.Some? && response.value.awsResponse.Some? && serviceName.None?)
      && (response.Some? && response.value.awsResponse.Some? && response.value.awsResponse.value.requestId.Some?
          && response.value.awsResponse.value.requestId.value.Some? ==>
            K.AwsRequestId in o.attrs
            && o.attrs[K.AwsRequestId] == StrValue(response.value.awsResponse.value.requestId.value.value))
  {
    if resp :| response == Some(resp) {
      if obj :| resp.awsResponse == Some(obj) {
        if service :| serviceName == Some(service) {
          match AwsAttributeMap.GetResponseType(obj.cls.simpleName)
          case None =>
          case Some(t) => BedrockKeysAvoidCallKeys(t);
        }
      }
    }
  }

  /**
   * On the agent service, a response id is recorded only for a class the
   * operation of its kind lists; the response table does not cover every
   * listed class, so a GetAgentResult records no agent id.
   */
  lemma AgentResponseIds(attrs: Attrs, resp: AwsResponse, obj: JavaObject)
    requires resp.awsResponse == Some(obj)
    ensures var o := EndSpec(attrs, Some(BedrockAgentService), Some(resp));
      o.fault == None
      && (AwsAttributeMap.GetResponseType(obj.cls.simpleName).None? ==> o.attrs == RequestIdOf(attrs, Some(obj)))
      && (forall t: ResourceType :: AwsAttributeMap.GetResponseType(obj.cls.simpleName) == Some(t) ==>
            obj.cls.simpleName in OperationFor(t).ResponseClassNames()
            && o.attrs == SetText(RequestIdOf(attrs, Some(obj)), t.KeyAttribute(), obj, t.Getter()))
      && (obj.cls.simpleName == "GetAgentResult" ==> o.attrs == RequestIdOf(attrs, Some(obj)))
  {
    AwsAttributeMap.ResponseTableIsPartial();
    forall t: ResourceType | AwsAttributeMap.GetResponseType(obj.cls.simpleName) == Some(t)
      ensures obj.cls.simpleName in OperationFor(t).ResponseClassNames()
    {
      AwsAttributeMap.ResponseTypeWithinListingOperation(obj.cls.simpleName, t);
    }
  }
}
