/**
 * BedrockAttributesExtractor of the AWS SDK 1.11 instrumentation: three
 * registries built once from the operation and model classes, and the
 * start and end hooks, which switch on the service name and hand agent
 * calls to the operation of the request or response class and runtime
 * calls to the decoder of the model family. The extractor keeps the service
 * name and model family of the latest start in two fields that the end hook reads.
 */
module BedrockExtraction {
  import opened Outcomes
  import opened JavaText
  import opened NameLists
  import opened Collectors
  import opened Attributes
  import opened RequestAccess
  import opened AwsResourceType
  import opened BedrockAgentOperations
  import opened BedrockRuntimeModels
  import opened AwsCalls
  import AwsAttributeMap
  import K = AwsExperimentalAttributesV1

  // ------------------------------------------------------------ the registries

  /** REQUEST_CLASS_MAPPING: every request class name of every operation, to its operation. */
  const RequestRegistry: Try<map<string, Operation>> :=
    ToMap(Tag(KnowledgeBaseOperation.RequestClassNames(), KnowledgeBaseOperation)
          + Tag(DataSourceOperation.RequestClassNames(), DataSourceOperation)
          + Tag(AgentOperation.RequestClassNames(), AgentOperation))

  /** RESPONSE_CLASS_MAPPING: every response class name of every operation, to its operation. */
  const ResponseRegistry: Try<map<string, Operation>> :=
    ToMap(Tag(KnowledgeBaseOperation.ResponseClassNames(), KnowledgeBaseOperation)
          + Tag(DataSourceOperation.ResponseClassNames(), DataSourceOperation)
          + Tag(AgentOperation.ResponseClassNames(), AgentOperation))

  /** BEDROC_RUNTIME_MODEL_MAPPING: every model name prefix, to its decoder. */
  const ModelRegistry: Try<map<string, RuntimeModel>> :=
    ToMap(Tag(Claude.ModelNames(), Claude) + Tag(Llama.ModelNames(), Llama) + Tag(Titan.ModelNames(), Titan))

  /** A registry lookup: null for a name it does not hold. */
  function Lookup<V>(registry: Try<map<string, V>>, name: string): (r: Option<V>)
    ensures r.Some? <==> registry.Ok? && name in registry.value
    ensures r.Some? ==> r.value == registry.value[name]
  {
    if registry.Ok? && name in registry.value then Some(registry.value[name]) else None
  }

  /** The model names of the three decoders, in registry order. */
  const ModelNames: seq<string> := Claude.ModelNames() + Llama.ModelNames() + Titan.ModelNames()

  /** The request registry builds, and holds exactly the names each operation lists, with that operation. */
  lemma RequestRegistryClassifies(name: string, op: Operation)
    ensures RequestRegistry.Ok?
    ensures Lookup(RequestRegistry, name) == Some(op) <==> name in op.RequestClassNames()
  {
    RequestNamesDistinct();
    ToMapTagged(KnowledgeBaseRequests, KnowledgeBaseOperation, DataSourceRequests, DataSourceOperation,
                AgentRequests, AgentOperation, name, op);
  }

  /** The response registry builds, and holds exactly the names each operation lists, with that operation. */
  lemma ResponseRegistryClassifies(name: string, op: Operation)
    ensures ResponseRegistry.Ok?
    ensures Lookup(ResponseRegistry, name) == Some(op) <==> name in op.ResponseClassNames()
  {
    ResponseNamesDistinct();
    ToMapTagged(KnowledgeBaseResponses, KnowledgeBaseOperation, DataSourceResponses, DataSourceOperation,
                AgentResponses, AgentOperation, name, op);
  }

  /** The model registry builds, and gives each family's names to that family's decoder. */
  lemma ModelRegistryClassifies(name: string, model: RuntimeModel)
    ensures ModelRegistry.Ok?
    ensures Lookup(ModelRegistry, name) == Some(model) <==> name in model.ModelNames()
  {
    assert Distinct(ModelNames);
    ToMapTagged(Claude.ModelNames(), Claude, Llama.ModelNames(), Llama, Titan.ModelNames(), Titan, name, model);
  }

  /**
   * The request registry and the experimental extractor's request table
   * classify every request class name alike.
   */
  lemma RequestRegistryAgreesWithAttributeMap(name: string, op: Operation)
    ensures Lookup(RequestRegistry, name) == Some(op) <==> AwsAttributeMap.GetRequestType(name) == Some(op.Kind())
  {
    RequestRegistryClassifies(name, op);
    AwsAttributeMap.RequestTypeIsTheListingOperation(name, op.Kind());
    assert OperationFor(op.Kind()) == op;
  }

  /**
   * Every response the experimental extractor's table classifies is
   * classified alike here, and the registry holds more: GetAgentResult
   * reaches the agent operation here and nothing in the table.
   */
  lemma ResponseRegistryExtendsAttributeMap(name: string, t: ResourceType)
    ensures AwsAttributeMap.GetResponseType(name) == Some(t) ==> Lookup(ResponseRegistry, name) == Some(OperationFor(t))
    ensures Lookup(ResponseRegistry, "GetAgentResult") == Some(AgentOperation)
    ensures AwsAttributeMap.GetResponseType("GetAgentResult") == None
  {
    if AwsAttributeMap.GetResponseType(name) == Some(t) {
      AwsAttributeMap.ResponseTypeWithinListingOperation(name, t);
      ResponseRegistryClassifies(name, OperationFor(t));
    }
    AwsAttributeMap.ResponseTableIsPartial();
    ResponseRegistryClassifies("GetAgentResult", AgentOperation);
  }

  // ------------------------------------------------------------ the model family

  /** The family of a model id: the text before its first '-', which the registry may or may not know. */
  lemma {:induction false} FamilyIsTextBeforeFirstDash(prefix: string, rest: string)
    requires |prefix| > 0 && '-' !in prefix
    ensures FirstPiece(prefix + "-" + rest, '-') == Ok(prefix)
  {
    var s := prefix + "-" + rest;
    assert s[|prefix|] == '-';
    assert s[0] == prefix[0] != '-';
    forall j | 0 <= j < |prefix| ensures s[j] != '-' {
      assert s[j] == prefix[j];
    }
    IndexFromSkips(s, |prefix|, 0);
    assert s[..|prefix|] == prefix;
  }

  lemma {:induction false} IndexFromSkips(s: string, k: nat, from: nat)
    requires from <= k < |s| && s[k] == '-'
    requires forall j :: from <= j < k ==> s[j] != '-'
    ensures IndexFrom(s, '-', from) == k
    decreases k - from
  {
    if from < k {
      IndexFromSkips(s, k, from + 1);
    }
  }

  /** A Claude model id reaches the Claude decoder: its family is the text before the first '-'. */
  lemma ClaudeIdsReachClaude(rest: string)
    ensures FirstPiece("anthropic.claude-" + rest, '-') == Ok("anthropic.claude")
    ensures Lookup(ModelRegistry, "anthropic.claude") == Some(Claude)
  {
    FamilyIsTextBeforeFirstDash("anthropic.claude", rest);
    assert "anthropic.claude" + "-" + rest == "anthropic.claude-" + rest;
    ModelRegistryClassifies("anthropic.claude", Claude);
  }

  /** A family no decoder lists, such as a cross-region id's "us.anthropic.claude", reaches no decoder. */
  lemma UnlistedFamiliesReachNoDecoder(family: string)
    requires family !in ModelNames
    ensures Lookup(ModelRegistry, family) == None
  {
    var r := Lookup(ModelRegistry, family);
    if r.Some? {
      ModelRegistryClassifies(family, r.value);
      assert false;
    }
  }

  // ------------------------------------------------------------ the hooks, as values

  /** What onStart leaves behind: the attributes, the exception it throws, and the model family field. */
  datatype StartEffect = StartEffect(attrs: Attrs, fault: Option<Fault>, modelName: Option<string>)

  /** The InvokeModel branch of onStart. */
  ghost function RuntimeStart(parsers: Parsers, attrs: Attrs, modelName: Option<string>, orig: JavaObject, segment: string): StartEffect
    reads BodyFrame(Some(orig))
    requires BodyReadable(Some(orig))
  {
    if segment != "InvokeModelRequest" then StartEffect(attrs, None, modelName)
    else
      var id := Invoke(orig, ModelId);
      var a := PutText(attrs[K.AwsBedrockSystem := StrValue("AWS Bedrock")], K.AwsBedrockRuntimeModelId, id);
      if id.None? then StartEffect(a, Some(NullPointer), modelName)
      else match FirstPiece(id.value, '-')
        case Throws(f) => StartEffect(a, Some(f), modelName)
        case Ok(family) =>
          match Lookup(ModelRegistry, family)
          case None => StartEffect(a, None, Some(family))
          case Some(model) =>
            var o := model.StartFrom(parsers, a, Payload(Some(orig)));
            StartEffect(o.attrs, o.fault, Some(family))
  }

  /** onStart for a call, from the attributes and the model family field before it. */
  ghost function StartSpec(parsers: Parsers, attrs: Attrs, modelName: Option<string>, request: AwsRequest): StartEffect
    reads BodyFrame(request.originalRequest)
    requires BodyReadable(request.originalRequest)
  {
    match request.originalRequest
    case None => StartEffect(attrs, Some(NullPointer), modelName)
    case Some(orig) =>
      match LastSegment(orig.cls.name)
      case Throws(f) => StartEffect(attrs, Some(f), modelName)
      case Ok(segment) =>
        match request.serviceName
        case None => StartEffect(attrs, Some(NullPointer), modelName)
        case Some(service) =>
          match ServiceOf(service)
          case Bedrock => StartEffect(PutText(attrs, K.AwsGuardrailId, Invoke(orig, GuardrailId)), None, modelName)
          case BedrockAgent =>
            (match Lookup(RequestRegistry, segment)
             case None => StartEffect(attrs, None, modelName)
             case Some(op) => StartEffect(Recorded(op, attrs, orig), None, modelName))
          case BedrockAgentRuntime =>
            StartEffect(PutText(PutText(attrs, K.AwsAgentId, Invoke(orig, AgentId)), K.AwsKnowledgeBaseId, Invoke(orig, KnowledgeBaseId)),
                        None, modelName)
          case BedrockRuntime => RuntimeStart(parsers, attrs, modelName, orig, segment)
          case OtherService => StartEffect(attrs, None, modelName)
  }

  const InputTokenHeader := "X-Amzn-Bedrock-Input-Token-Count"
  const OutputTokenHeader := "X-Amzn-Bedrock-Output-Token-Count"

  /**
   * One token count header, looked up as containsKey and get do on the
   * SDK's header map, whatever the case of the name the response carries:
   * absent, or Integer.parseInt of its value.
   */
  function TokenHeader(headers: HeaderMap, name: string): Option<Try<int>> {
    match HeaderGet(headers, name)
    case None => None
    case Some(v) => Some(ParseInt(v))
  }

  /** The InvokeModel branch of onEnd: the two token counts, then the decoder of the latest start's family. */
  ghost function RuntimeEnd(parsers: Parsers, attrs: Attrs, modelName: Option<string>, headers: Option<HeaderMap>, obj: JavaObject): Outcome
    reads BodyFrame(Some(obj))
    requires BodyReadable(Some(obj))
  {
    match headers
    case None => Outcome(attrs, Some(NullPointer))
    case Some(h) =>
      var counted := TokenCounts(attrs, h);
      if counted.fault.Some? then counted
      else
        var model := if modelName.Some? then Lookup(ModelRegistry, modelName.value) else None;
        match model
        case None => counted
        case Some(m) => m.EndFrom(parsers, counted.attrs, Payload(Some(obj)))
  }

  /** The two token count headers, input before output, each put as a long once it parses. */
  function TokenCounts(attrs: Attrs, h: HeaderMap): Outcome {
    var input := TokenHeader(h, InputTokenHeader);
    if input.Some? && input.value.Throws? then Outcome(attrs, Some(input.value.fault))
    else
      var a := if input.Some? then attrs[K.AwsBedrockPromptTokens := LongValue(input.value.value)] else attrs;
      var output := TokenHeader(h, OutputTokenHeader);
      if output.Some? && output.value.Throws? then Outcome(a, Some(output.value.fault))
      else Outcome(if output.Some? then a[K.AwsBedrockCompletionTokens := LongValue(output.value.value)] else a, None)
  }

  /** The response object of a response, when there is a response. */
  function ResponseObject(response: Option<AwsResponse>): Option<JavaObject> {
    if response.Some? then response.value.awsResponse else None
  }

  /** onEnd for a call, from the service name and model family the latest onStart stored. */
  ghost function EndSpec(parsers: Parsers, attrs: Attrs, serviceName: Option<string>, modelName: Option<string>, response: Option<AwsResponse>): Outcome
    reads BodyFrame(ResponseObject(response))
    requires BodyReadable(ResponseObject(response))
  {
    match ResponseObject(response)
    case None => Outcome(attrs, None)
    case Some(obj) =>
      match serviceName
      case None => Outcome(attrs, Some(NullPointer))
      case Some(service) =>
        match ServiceOf(service)
        case Bedrock => Outcome(PutText(attrs, K.AwsGuardrailId, Invoke(obj, GuardrailId)), None)
        case BedrockAgent =>
          (match LastSegment(obj.cls.name)
           case Throws(f) => Outcome(attrs, Some(f))
           case Ok(segment) =>
             match Lookup(ResponseRegistry, segment)
             case None => Outcome(attrs, None)
             case Some(op) => Outcome(Recorded(op, attrs, obj), None))
        case BedrockAgentRuntime =>
          Outcome(PutText(PutText(attrs, K.AwsAgentId, Invoke(obj, AgentId)), K.AwsKnowledgeBaseId, Invoke(obj, KnowledgeBaseId)), None)
        case BedrockRuntime => RuntimeEnd(parsers, attrs, modelName, response.value.headers, obj)
        case OtherService => Outcome(attrs, None)
  }

  // ------------------------------------------------------------ properties of the hooks

  /** A runtime call other than InvokeModel records nothing and keeps the stored family. */
  lemma RuntimeStartOnlyForInvokeModel(parsers: Parsers, attrs: Attrs, modelName: Option<string>, orig: JavaObject, segment: string)
    requires BodyReadable(Some(orig))
    requires segment != "InvokeModelRequest"
    ensures RuntimeStart(parsers, attrs, modelName, orig, segment) == StartEffect(attrs, None, modelName)
  {
  }

  /**
   * An InvokeModel request whose model id is "family-rest" records the
   * system and the id, and stores the family, before any decoder runs.
   */
  lemma InvokeModelStoresFamily(parsers: Parsers, attrs: Attrs, modelName: Option<string>, orig: JavaObject, family: string, rest: string)
    requires BodyReadable(Some(orig))
    requires |family| > 0 && '-' !in family
    requires Invoke(orig, ModelId) == Some(family + "-" + rest)
    ensures var e := RuntimeStart(parsers, attrs, modelName, orig, "InvokeModelRequest");
      e.modelName == Some(family)
      && (family !in ModelNames ==>
            e == StartEffect(attrs[K.AwsBedrockSystem := StrValue("AWS Bedrock")][K.AwsBedrockRuntimeModelId := StrValue(family + "-" + rest)],
                             None, Some(family)))
  {
    FamilyIsTextBeforeFirstDash(family, rest);
    if family !in ModelNames {
      UnlistedFamiliesReachNoDecoder(family);
    }
  }

  /**
   * An InvokeModel request without a model id fails with a
   * NullPointerException after recording the system, and keeps the stored family.
   */
  lemma InvokeModelWithoutIdFails(parsers: Parsers, attrs: Attrs, modelName: Option<string>, orig: JavaObject)
    requires BodyReadable(Some(orig))
    requires Invoke(orig, ModelId).None?
    ensures RuntimeStart(parsers, attrs, modelName, orig, "InvokeModelRequest")
            == StartEffect(attrs[K.AwsBedrockSystem := StrValue("AWS Bedrock")], Some(NullPointer), modelName)
  {
  }

  /** Without a response object the end hook does nothing, whatever the stored service name. */
  lemma EndWithoutResponseObjectDoesNothing(parsers: Parsers, attrs: Attrs, serviceName: Option<string>, modelName: Option<string>, response: Option<AwsResponse>)
    requires BodyReadable(ResponseObject(response))
    requires ResponseObject(response).None?
    ensures EndSpec(parsers, attrs, serviceName, modelName, response) == Outcome(attrs, None)
  {
  }

  /**
   * A token count header that is the decimal text of an int is recorded as
   * that number, the input count before the output count, whatever the case
   * of the header names.
   */
  lemma {:induction false} TokenCountsRoundTrip(parsers: Parsers, attrs: Attrs, obj: JavaObject, inName: string, outName: string, input: int, output: int)
    requires BodyReadable(Some(obj))
    requires FoldCase(inName) == FoldCase(InputTokenHeader) && FoldCase(outName) == FoldCase(OutputTokenHeader)
    requires IsInt32(input) && IsInt32(output)
    ensures var h := map[inName := IntToString(input), outName := IntToString(output)];
      CaseDistinct(h)
      && RuntimeEnd(parsers, attrs, None, Some(h), obj)
         == Outcome(attrs[K.AwsBedrockPromptTokens := LongValue(input)][K.AwsBedrockCompletionTokens := LongValue(output)], None)
  {
    var h := map[inName := IntToString(input), outName := IntToString(output)];
    assert |inName| != |outName| by {
      assert |FoldCase(inName)| == |inName| && |FoldCase(outName)| == |outName|;
    }
    assert CaseDistinct(h);
    IntTextRoundTrip(input);
    IntTextRoundTrip(output);
    assert HeaderGet(h, InputTokenHeader) == Some(IntToString(input));
    assert HeaderGet(h, OutputTokenHeader) == Some(IntToString(output));
  }

  /**
   * The headers under their all-lower-case names (the spelling HTTP/2
   * responses carry) are read as the token count headers.
   */
  lemma LowerCaseTokenHeadersRead(parsers: Parsers, attrs: Attrs, obj: JavaObject, input: int, output: int)
    requires BodyReadable(Some(obj))
    requires IsInt32(input) && IsInt32(output)
    ensures var h := map[FoldCase(InputTokenHeader) := IntToString(input), FoldCase(OutputTokenHeader) := IntToString(output)];
      CaseDistinct(h)
      && RuntimeEnd(parsers, attrs, None, Some(h), obj)
         == Outcome(attrs[K.AwsBedrockPromptTokens := LongValue(input)][K.AwsBedrockCompletionTokens := LongValue(output)], None)
  {
    FoldCaseIdempotent(InputTokenHeader);
    FoldCaseIdempotent(OutputTokenHeader);
    TokenCountsRoundTrip(parsers, attrs, obj, FoldCase(InputTokenHeader), FoldCase(OutputTokenHeader), input, output);
  }

  /**
   * A token count header that is not an int fails the end hook with
   * NumberFormatException before anything is recorded, whatever the case of
   * its name.
   */
  lemma MalformedInputTokenCountFails(parsers: Parsers, attrs: Attrs, modelName: Option<string>, h: HeaderMap, name: string, obj: JavaObject)
    requires BodyReadable(Some(obj))
    requires name in h && FoldCase(name) == FoldCase(InputTokenHeader) && ParseInt(h[name]).Throws?
    ensures RuntimeEnd(parsers, attrs, modelName, Some(h), obj) == Outcome(attrs, Some(NumberFormat))
  {
    assert HeaderGet(h, InputTokenHeader) == Some(h[name]);
  }

  // ------------------------------------------------------------ the extractor

  class BedrockAttributesExtractor {
    var serviceName: Option<string>
    var modelName: Option<string>
    /** The accessor cache of RequestAccess, shared by every getter call. */
    const access: RequestAccessCache
    const parsers: Parsers

    constructor(access: RequestAccessCache, parsers: Parsers)
      ensures serviceName == None && modelName == None
      ensures this.access == access && this.parsers == parsers
    {
      serviceName := None;
      modelName := None;
      this.access := access;
      this.parsers := parsers;
    }

    /** onStart: the service name is stored first, whatever follows. */
    method OnStart(attributes: AttributesBuilder, request: AwsRequest) returns (fault: Option<Fault>)
      requires access.Valid() && BodyReadable(request.originalRequest)
      modifies this, attributes, access
      ensures access.Valid()
      ensures serviceName == request.serviceName
      ensures var e := StartSpec(parsers, old(attributes.attrs), old(modelName), request);
        attributes.attrs == e.attrs && fault == e.fault && modelName == e.modelName
    {
      serviceName := request.serviceName;
      if request.originalRequest.None? {
        return Some(NullPointer);
      }
      var orig := request.originalRequest.value;
      var segment := LastSegment(orig.cls.name);
      if segment.Throws? {
        return Some(segment.fault);
      }
      if serviceName.None? {
        return Some(NullPointer);
      }
      fault := None;
      match ServiceOf(serviceName.value) {
        case Bedrock =>
          SetText(attributes, access, orig, K.AwsGuardrailId, GuardrailId);
        case BedrockAgent =>
          var op := Lookup(RequestRegistry, segment.value);
          if op.Some? {
            Record(op.value, attributes, access, orig);
          }
        case BedrockAgentRuntime =>
          SetText(attributes, access, orig, K.AwsAgentId, AgentId);
          SetText(attributes, access, orig, K.AwsKnowledgeBaseId, KnowledgeBaseId);
        case BedrockRuntime =>
          fault := StartRuntime(attributes, orig, segment.value);
        case OtherService =>
      }
    }

    /** The InvokeModel branch of onStart: system and model id, then the family's decoder. */
    method StartRuntime(attributes: AttributesBuilder, orig: JavaObject, segment: string) returns (fault: Option<Fault>)
      requires access.Valid() && BodyReadable(Some(orig))
      modifies this`modelName, attributes, access
      ensures access.Valid()
      ensures var e := RuntimeStart(parsers, old(attributes.attrs), old(modelName), orig, segment);
        attributes.attrs == e.attrs && fault == e.fault && modelName == e.modelName
    {
      if segment != "InvokeModelRequest" {
        return None;
      }
      attributes.Put(K.AwsBedrockSystem, Some("AWS Bedrock"));
      var id := access.GetText(Some(orig), ModelId);
      attributes.Put(K.AwsBedrockRuntimeModelId, id.value);
      if id.value.None? {
        return Some(NullPointer);
      }
      var family := FirstPiece(id.value.value, '-');
      if family.Throws? {
        return Some(family.fault);
      }
      modelName := Some(family.value);
      var model := Lookup(ModelRegistry, family.value);
      if model.Some? {
        fault := BedrockRuntimeModels.OnStart(model.value, attributes, access, parsers, Some(orig));
      } else {
        fault := None;
      }
    }

    /** onEnd: reads the service name and model family of the latest onStart, not of this call. */
    method OnEnd(attributes: AttributesBuilder, response: Option<AwsResponse>) returns (fault: Option<Fault>)
      requires access.Valid() && BodyReadable(ResponseObject(response))
      modifies attributes, access
      ensures access.Valid()
      ensures var o := EndSpec(parsers, old(attributes.attrs), serviceName, modelName, response);
        attributes.attrs == o.attrs && fault == o.fault
    {
      if response.None? || response.value.awsResponse.None? {
        return None;
      }
      var obj := response.value.awsResponse.value;
      if serviceName.None? {
        return Some(NullPointer);
      }
      fault := None;
      match ServiceOf(serviceName.value) {
        case Bedrock =>
          SetText(attributes, access, obj, K.AwsGuardrailId, GuardrailId);
        case BedrockAgent =>
          var segment := LastSegment(obj.cls.name);
          if segment.Throws? {
            return Some(segment.fault);
          }
          var op := Lookup(ResponseRegistry, segment.value);
          if op.Some? {
            Record(op.value, attributes, access, obj);
          }
        case BedrockAgentRuntime =>
          SetText(attributes, access, obj, K.AwsAgentId, AgentId);
          SetText(attributes, access, obj, K.AwsKnowledgeBaseId, KnowledgeBaseId);
        case BedrockRuntime =>
          fault := EndRuntime(attributes, response.value.headers, obj);
        case OtherService =>
      }
    }

    /** The InvokeModel branch of onEnd: the token count headers, then the decoder of the stored family. */
    method EndRuntime(attributes: AttributesBuilder, headers: Option<HeaderMap>, obj: JavaObject) returns (fault: Option<Fault>)
      requires access.Valid() && BodyReadable(Some(obj))
      modifies attributes, access
      ensures access.Valid()
      ensures var o := RuntimeEnd(parsers, old(attributes.attrs), modelName, headers, obj);
        attributes.attrs == o.attrs && fault == o.fault
    {
      if headers.None? {
        return Some(NullPointer);
      }
      fault := RecordTokenCounts(attributes, headers.value);
      if fault.Some? {
        return;
      }
      var model := if modelName.Some? then Lookup(ModelRegistry, modelName.value) else None;
      if model.Some? {
        fault := BedrockRuntimeModels.OnEnd(model.value, attributes, access, parsers, Some(obj));
      } else {
        fault := None;
      }
    }
  }

  /** The token count part of the InvokeModel branch of onEnd. */
  method RecordTokenCounts(attributes: AttributesBuilder, h: HeaderMap) returns (fault: Option<Fault>)
    modifies attributes
    ensures var o := TokenCounts(old(attributes.attrs), h);
      attributes.attrs == o.attrs && fault == o.fault
  {
    var input := TokenHeader(h, InputTokenHeader);
    if input.Some? {
      if input.value.Throws? {
        return Some(input.value.fault);
      }
      attributes.PutLong(K.AwsBedrockPromptTokens, input.value.value);
    }
    var output := TokenHeader(h, OutputTokenHeader);
    if output.Some? {
      if output.value.Throws? {
        return Some(output.value.fault);
      }
      attributes.PutLong(K.AwsBedrockCompletionTokens, output.value.value);
    }
    fault := None;
  }

  /** setAttribute: the getter's value under `key`, nothing when it is null. */
  method SetText(attributes: AttributesBuilder, access: RequestAccessCache, obj: JavaObject, key: string, a: TextAccessor)
    requires access.Valid()
    modifies attributes, access
    ensures access.Valid() && access.profiles == old(access.profiles)[obj.cls := Probe(obj.cls)]
    ensures attributes.attrs == PutText(old(attributes.attrs), key, Invoke(obj, a))
  {
    var value := access.GetText(Some(obj), a);
    attributes.Put(key, value.value);
  }
}
