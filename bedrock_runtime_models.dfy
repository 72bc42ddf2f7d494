/**
 * The Bedrock runtime model decoders of the AWS SDK 1.11 instrumentation.
 * Each reads the JSON body of an InvokeModel request or response and records
 * the sampling parameters (on start) or the finish reason (on end) under the
 * gen_ai.* keys. Claude and Titan read the body with Jackson, whose accessors
 * never throw; Llama reads it with org.json, whose getters throw part way
 * through and leave the earlier puts in place.
 */
module BedrockRuntimeModels {
  import opened Outcomes
  import opened Json
  import opened Attributes
  import opened ByteBuffers
  import opened RequestAccess
  import K = AwsExperimentalAttributesV1

  /**
   * The JSON text parsers, given as parameters: each takes the bytes of a body
   * (decoded as UTF-8) to the document they hold, or None when the text is
   * not JSON the parser accepts.
   */
  datatype Parsers = Parsers(jackson: seq<bv8> -> Option<Json>, orgJson: seq<bv8> -> Option<Json>)

  /** ObjectMapper.readTree: any JSON document, JsonProcessingException otherwise. */
  function ReadTree(parsers: Parsers, bytes: seq<bv8>): (r: Try<Json>)
    ensures r.Throws? <==> parsers.jackson(bytes).None?
    ensures r.Throws? ==> r.fault == JsonProcessing
    ensures r.Ok? ==> r.value == parsers.jackson(bytes).value
  {
    match parsers.jackson(bytes)
    case None => Throws(JsonProcessing)
    case Some(node) => Ok(node)
  }

  /** new JSONObject(text): only a document whose top level is an object, JSONException otherwise. */
  function NewJsonObject(parsers: Parsers, bytes: seq<bv8>): (r: Try<map<string, Json>>)
    ensures r.Ok? <==> parsers.orgJson(bytes).Some? && parsers.orgJson(bytes).value.JObj?
    ensures r.Throws? ==> r.fault == JsonFormat
    ensures r.Ok? ==> r.value == parsers.orgJson(bytes).value.fields
  {
    match parsers.orgJson(bytes)
    case Some(JObj(fields)) => Ok(fields)
    case _ => Throws(JsonFormat)
  }

  // ------------------------------------------------------------ the body

  /** The buffer getBody returns for a non-null object, when it returns one. */
  function BodyBuffer(obj: Option<JavaObject>): (b: Option<ByteBuffer>)
    ensures b.Some? <==> obj.Some? && BodyOf(obj.value).Some?
    ensures b.Some? ==> b == BodyOf(obj.value)
  {
    if obj.Some? then BodyOf(obj.value) else None
  }

  /** The buffer and its backing array: what reading the body looks at. */
  function BodyFrame(obj: Option<JavaObject>): set<object> {
    match BodyBuffer(obj)
    case None => {}
    case Some(b) => {b, b.content}
  }

  /** A returned body buffer keeps position <= limit <= capacity, as every java.nio buffer does. */
  ghost predicate BodyReadable(obj: Option<JavaObject>)
    reads BodyFrame(obj)
  {
    BodyBuffer(obj).Some? ==> BodyBuffer(obj).value.Valid()
  }

  /**
   * The bytes every decoder reads: a null object, or a null body, fails with
   * a NullPointerException at asReadOnlyBuffer; otherwise the body's unread bytes.
   */
  ghost function Payload(obj: Option<JavaObject>): (r: Try<seq<bv8>>)
    reads BodyFrame(obj)
    requires BodyReadable(obj)
    ensures r.Throws? <==> BodyBuffer(obj).None?
    ensures r.Throws? ==> r.fault == NullPointer
  {
    match BodyBuffer(obj)
    case None => Throws(NullPointer)
    case Some(b) => Ok(b.Unread())
  }

  /** getBody, asReadOnlyBuffer, new byte[remaining()], get: the body's bytes, the body itself left as it was. */
  method ReadPayload(access: RequestAccessCache, obj: Option<JavaObject>) returns (r: Try<seq<bv8>>)
    requires access.Valid() && BodyReadable(obj)
    modifies access
    ensures access.Valid()
    ensures r == Payload(obj)
  {
    var body := access.GetBody(obj);
    if body.Throws? {
      return Throws(body.fault);
    }
    if body.value.None? {
      return Throws(NullPointer);
    }
    var bytes := ReadRemaining(body.value.value);
    r := Ok(bytes);
  }

  // ------------------------------------------------------------ the recorded values

  /** The three sampling keys the start hooks write. */
  const SamplingKeys: set<string> := {K.AwsBedrockRuntimeMaxTokenCount, K.AwsBedrockRuntimeTemperature, K.AwsBedrockRuntimeTopP}

  /** An attribute map with a value put under `key` when there is one. */
  function PutIf(attrs: Attrs, key: string, v: Option<AttrValue>): Attrs {
    if v.Some? then attrs[key := v.value] else attrs
  }

  /** Claude's max token count: max_tokens_to_sample when it is an int node, else max_tokens when that is. */
  function ClaudeMaxTokens(node: Json): Option<AttrValue> {
    if HasField(node, "max_tokens_to_sample") && IsIntNode(node.fields["max_tokens_to_sample"]) then
      Some(LongValue(AsInt(node.fields["max_tokens_to_sample"])))
    else if HasField(node, "max_tokens") && IsIntNode(node.fields["max_tokens"]) then
      Some(LongValue(AsInt(node.fields["max_tokens"])))
    else None
  }

  /** A Claude sampling value: the field when Jackson holds it as a double node. */
  function ClaudeDouble(node: Json, name: string): Option<AttrValue> {
    if HasField(node, name) && IsDoubleNode(node.fields[name]) then Some(DoubleValue(AsDouble(node.fields[name])))
    else None
  }

  /** What the Claude start hook records from a parsed request body. */
  function ClaudeStart(attrs: Attrs, node: Json): Attrs {
    var a := PutIf(attrs, K.AwsBedrockRuntimeMaxTokenCount, ClaudeMaxTokens(node));
    var b := PutIf(a, K.AwsBedrockRuntimeTemperature, ClaudeDouble(node, "temperature"));
    PutIf(b, K.AwsBedrockRuntimeTopP, ClaudeDouble(node, "top_p"))
  }

  /** What the Claude end hook records from a parsed response body. */
  function ClaudeEnd(attrs: Attrs, node: Json): Attrs {
    if HasField(node, "stop_reason") && IsTextual(node.fields["stop_reason"]) then
      attrs[K.AwsBedrockFinishReasons := StrValue(AsText(node.fields["stop_reason"]))]
    else attrs
  }

  /** An org.json read of a present field: the value, or the JSONException that ends the hook. */
  function LlamaRead(o: map<string, Json>, name: string, asLong: bool): Option<Try<AttrValue>> {
    if !Has(o, name) then None
    else if asLong then
      (match GetInt(o, name) case Ok(n) => Some(Ok(LongValue(n))) case Throws(f) => Some(Throws(f)))
    else
      (match GetDouble(o, name) case Ok(d) => Some(Ok(DoubleValue(d))) case Throws(f) => Some(Throws(f)))
  }

  /** One org.json put: a missing field is skipped, an unreadable one stops the hook with the puts so far. */
  function LlamaStep(prior: Outcome, key: string, read: Option<Try<AttrValue>>): Outcome {
    if prior.fault.Some? then prior
    else match read
      case None => prior
      case Some(Ok(v)) => Outcome(prior.attrs[key := v], None)
      case Some(Throws(f)) => Outcome(prior.attrs, Some(f))
  }

  /** What the Llama start hook records from a request body object, and the exception it ends with. */
  function LlamaStart(attrs: Attrs, o: map<string, Json>): Outcome {
    var a := LlamaStep(Outcome(attrs, None), K.AwsBedrockRuntimeMaxTokenCount, LlamaRead(o, "max_gen_len", true));
    var b := LlamaStep(a, K.AwsBedrockRuntimeTemperature, LlamaRead(o, "temperature", false));
    LlamaStep(b, K.AwsBedrockRuntimeTopP, LlamaRead(o, "top_p", false))
  }

  /** What the Llama end hook records from a response body object, and the exception it ends with. */
  function LlamaEnd(attrs: Attrs, o: map<string, Json>): Outcome {
    if !Has(o, "stop_reason") then Outcome(attrs, None)
    else match GetString(o, "stop_reason")
      case Ok(s) => Outcome(attrs[K.AwsBedrockFinishReasons := StrValue(s)], None)
      case Throws(f) => Outcome(attrs, Some(f))
  }

  /** A Titan sampling value: any present field of the config object, read leniently. */
  function TitanValue(config: Json, name: string, asLong: bool): Option<AttrValue> {
    if !HasField(config, name) then None
    else if asLong then Some(LongValue(AsInt(config.fields[name])))
    else Some(DoubleValue(AsDouble(config.fields[name])))
  }

  /** What the Titan start hook records: nothing unless textGenerationConfig is an object. */
  function TitanStart(attrs: Attrs, node: Json): Attrs {
    var config := Field(node, "textGenerationConfig");
    if config.Some? && config.value.JObj? then
      var a := PutIf(attrs, K.AwsBedrockRuntimeMaxTokenCount, TitanValue(config.value, "maxTokenCount", true));
      var b := PutIf(a, K.AwsBedrockRuntimeTemperature, TitanValue(config.value, "temperature", false));
      PutIf(b, K.AwsBedrockRuntimeTopP, TitanValue(config.value, "topP", false))
    else attrs
  }

  /** What the Titan end hook records: the completion reason of the first result, when it has one. */
  function TitanEnd(attrs: Attrs, node: Json): Attrs {
    if HasField(node, "results") && node.fields["results"].JArr? && |node.fields["results"].items| > 0
       && HasField(node.fields["results"].items[0], "completionReason") then
      attrs[K.AwsBedrockFinishReasons := StrValue(AsText(node.fields["results"].items[0].fields["completionReason"]))]
    else attrs
  }

  // ------------------------------------------------------------ the three decoders

  /** The model families a runtime call is decoded by. */
  datatype RuntimeModel = Claude | Llama | Titan
  {
    /** modelNames(): the model id prefixes the family answers to. */
    function ModelNames(): seq<string> {
      match this
      case Claude => ["anthropic.claude"]
      case Llama => ["meta.llama2", "meta.llama3"]
      case Titan => ["amazon.titan"]
    }

    /** onStart from the body bytes: the attributes after the hook and the exception it throws, if any. */
    function StartFrom(parsers: Parsers, attrs: Attrs, payload: Try<seq<bv8>>): Outcome {
      if payload.Throws? then Outcome(attrs, Some(payload.fault))
      else match this
        case Claude =>
          (match ReadTree(parsers, payload.value)
           case Ok(node) => Outcome(ClaudeStart(attrs, node), None)
           case Throws(f) => Outcome(attrs, Some(f)))
        case Llama =>
          (match NewJsonObject(parsers, payload.value)
           case Ok(o) => LlamaStart(attrs, o)
           case Throws(f) => Outcome(attrs, Some(f)))
        case Titan =>
          (match ReadTree(parsers, payload.value)
           case Ok(node) => Outcome(TitanStart(attrs, node), None)
           case Throws(f) => Outcome(attrs, Some(f)))
    }

    /** onEnd from the body bytes: the attributes after the hook and the exception it throws, if any. */
    function EndFrom(parsers: Parsers, attrs: Attrs, payload: Try<seq<bv8>>): Outcome {
      if payload.Throws? then Outcome(attrs, Some(payload.fault))
      else match this
        case Claude =>
          (match ReadTree(parsers, payload.value)
           case Ok(node) => Outcome(ClaudeEnd(attrs, node), None)
           case Throws(f) => Outcome(attrs, Some(f)))
        case Llama =>
          (match NewJsonObject(parsers, payload.value)
           case Ok(o) => LlamaEnd(attrs, o)
           case Throws(f) => Outcome(attrs, Some(f)))
        case Titan =>
          (match ReadTree(parsers, payload.value)
           case Ok(node) => Outcome(TitanEnd(attrs, node), None)
           case Throws(f) => Outcome(attrs, Some(f)))
    }
  }

  /** BedrockRuntimeClaudeModel.onStart. */
  method ClaudeOnStart(attributes: AttributesBuilder, access: RequestAccessCache, parsers: Parsers, request: Option<JavaObject>)
    returns (fault: Option<Fault>)
    requires access.Valid() && BodyReadable(request)
    modifies attributes, access
    ensures access.Valid()
    ensures Outcome(attributes.attrs, fault) == Claude.StartFrom(parsers, old(attributes.attrs), Payload(request))
  {
    var payload := ReadPayload(access, request);
    if payload.Throws? {
      return Some(payload.fault);
    }
    var tree := ReadTree(parsers, payload.value);
    if tree.Throws? {
      return Some(tree.fault);
    }
    var node := tree.value;
    if HasField(node, "max_tokens_to_sample") && IsIntNode(node.fields["max_tokens_to_sample"]) {
      attributes.PutLong(K.AwsBedrockRuntimeMaxTokenCount, AsInt(node.fields["max_tokens_to_sample"]));
    } else if HasField(node, "max_tokens") && IsIntNode(node.fields["max_tokens"]) {
      attributes.PutLong(K.AwsBedrockRuntimeMaxTokenCount, AsInt(node.fields["max_tokens"]));
    }
    if HasField(node, "temperature") && IsDoubleNode(node.fields["temperature"]) {
      attributes.PutDouble(K.AwsBedrockRuntimeTemperature, AsDouble(node.fields["temperature"]));
    }
    if HasField(node, "top_p") && IsDoubleNode(node.fields["top_p"]) {
      attributes.PutDouble(K.AwsBedrockRuntimeTopP, AsDouble(node.fields["top_p"]));
    }
    fault := None;
  }

  /** BedrockRuntimeClaudeModel.onEnd. */
  method ClaudeOnEnd(attributes: AttributesBuilder, access: RequestAccessCache, parsers: Parsers, response: Option<JavaObject>)
    returns (fault: Option<Fault>)
    requires access.Valid() && BodyReadable(response)
    modifies attributes, access
    ensures access.Valid()
    ensures Outcome(attributes.attrs, fault) == Claude.EndFrom(parsers, old(attributes.attrs), Payload(response))
  {
    var payload := ReadPayload(access, response);
    if payload.Throws? {
      return Some(payload.fault);
    }
    var tree := ReadTree(parsers, payload.value);
    if tree.Throws? {
      return Some(tree.fault);
    }
    var node := tree.value;
    if HasField(node, "stop_reason") && IsTextual(node.fields["stop_reason"]) {
      attributes.Put(K.AwsBedrockFinishReasons, Some(AsText(node.fields["stop_reason"])));
    }
    fault := None;
  }

  /** BedrockRuntimeLlamaModel.onStart: each org.json getter may throw after the earlier puts. */
  method LlamaOnStart(attributes: AttributesBuilder, access: RequestAccessCache, parsers: Parsers, request: Option<JavaObject>)
    returns (fault: Option<Fault>)
    requires access.Valid() && BodyReadable(request)
    modifies attributes, access
    ensures access.Valid()
    ensures Outcome(attributes.attrs, fault) == Llama.StartFrom(parsers, old(attributes.attrs), Payload(request))
  {
    var payload := ReadPayload(access, request);
    if payload.Throws? {
      return Some(payload.fault);
    }
    var body := NewJsonObject(parsers, payload.value);
    if body.Throws? {
      return Some(body.fault);
    }
    var o := body.value;
    if Has(o, "max_gen_len") {
      var n := GetInt(o, "max_gen_len");
      if n.Throws? {
        return Some(n.fault);
      }
      attributes.PutLong(K.AwsBedrockRuntimeMaxTokenCount, n.value);
    }
    if Has(o, "temperature") {
      var d := GetDouble(o, "temperature");
      if d.Throws? {
        return Some(d.fault);
      }
      attributes.PutDouble(K.AwsBedrockRuntimeTemperature, d.value);
    }
    if Has(o, "top_p") {
      var d := GetDouble(o, "top_p");
      if d.Throws? {
        return Some(d.fault);
      }
      attributes.PutDouble(K.AwsBedrockRuntimeTopP, d.value);
    }
    fault := None;
  }

  /** BedrockRuntimeLlamaModel.onEnd. */
  method LlamaOnEnd(attributes: AttributesBuilder, access: RequestAccessCache, parsers: Parsers, response: Option<JavaObject>)
    returns (fault: Option<Fault>)
    requires access.Valid() && BodyReadable(response)
    modifies attributes, access
    ensures access.Valid()
    ensures Outcome(attributes.attrs, fault) == Llama.EndFrom(parsers, old(attributes.attrs), Payload(response))
  {
    var payload := ReadPayload(access, response);
    if payload.Throws? {
      return Some(payload.fault);
    }
    var body := NewJsonObject(parsers, payload.value);
    if body.Throws? {
      return Some(body.fault);
    }
    var o := body.value;
    if Has(o, "stop_reason") {
      var s := GetString(o, "stop_reason");
      if s.Throws? {
        return Some(s.fault);
      }
      attributes.Put(K.AwsBedrockFinishReasons, Some(s.value));
    }
    fault := None;
  }

  /** BedrockRuntimeTitanModel.onStart. */
  method TitanOnStart(attributes: AttributesBuilder, access: RequestAccessCache, parsers: Parsers, request: Option<JavaObject>)
    returns (fault: Option<Fault>)
    requires access.Valid() && BodyReadable(request)
    modifies attributes, access
    ensures access.Valid()
    ensures Outcome(attributes.attrs, fault) == Titan.StartFrom(parsers, old(attributes.attrs), Payload(request))
  {
    var payload := ReadPayload(access, request);
    if payload.Throws? {
      return Some(payload.fault);
    }
    var tree := ReadTree(parsers, payload.value);
    if tree.Throws? {
      return Some(tree.fault);
    }
    var config := Field(tree.value, "textGenerationConfig");
    if config.Some? && config.value.JObj? {
      var c := config.value;
      if HasField(c, "maxTokenCount") {
        attributes.PutLong(K.AwsBedrockRuntimeMaxTokenCount, AsInt(c.fields["maxTokenCount"]));
      }
      if HasField(c, "temperature") {
        attributes.PutDouble(K.AwsBedrockRuntimeTemperature, AsDouble(c.fields["temperature"]));
      }
      if HasField(c, "topP") {
        attributes.PutDouble(K.AwsBedrockRuntimeTopP, AsDouble(c.fields["topP"]));
      }
    }
    fault := None;
  }

  /** BedrockRuntimeTitanModel.onEnd. */
  method TitanOnEnd(attributes: AttributesBuilder, access: RequestAccessCache, parsers: Parsers, response: Option<JavaObject>)
    returns (fault: Option<Fault>)
    requires access.Valid() && BodyReadable(response)
    modifies attributes, access
    ensures access.Valid()
    ensures Outcome(attributes.attrs, fault) == Titan.EndFrom(parsers, old(attributes.attrs), Payload(response))
  {
    var payload := ReadPayload(access, response);
    if payload.Throws? {
      return Some(payload.fault);
    }
    var tree := ReadTree(parsers, payload.value);
    if tree.Throws? {
      return Some(tree.fault);
    }
    var node := tree.value;
    if HasField(node, "results") && node.fields["results"].JArr? {
      var results := node.fields["results"].items;
      if |results| > 0 {
        if HasField(results[0], "completionReason") {
          attributes.Put(K.AwsBedrockFinishReasons, Some(AsText(results[0].fields["completionReason"])));
        }
      }
    }
    fault := None;
  }

  /** The virtual call onStart on the family's decoder. */
  method OnStart(model: RuntimeModel, attributes: AttributesBuilder, access: RequestAccessCache, parsers: Parsers, request: Option<JavaObject>)
    returns (fault: Option<Fault>)
    requires access.Valid() && BodyReadable(request)
    modifies attributes, access
    ensures access.Valid()
    ensures Outcome(attributes.attrs, fault) == model.StartFrom(parsers, old(attributes.attrs), Payload(request))
  {
    match model
    case Claude => fault := ClaudeOnStart(attributes, access, parsers, request);
    case Llama => fault := LlamaOnStart(attributes, access, parsers, request);
    case Titan => fault := TitanOnStart(attributes, access, parsers, request);
  }

  /** The virtual call onEnd on the family's decoder. */
  method OnEnd(model: RuntimeModel, attributes: AttributesBuilder, access: RequestAccessCache, parsers: Parsers, response: Option<JavaObject>)
    returns (fault: Option<Fault>)
    requires access.Valid() && BodyReadable(response)
    modifies attributes, access
    ensures access.Valid()
    ensures Outcome(attributes.attrs, fault) == model.EndFrom(parsers, old(attributes.attrs), Payload(response))
  {
    match model
    case Claude => fault := ClaudeOnEnd(attributes, access, parsers, response);
    case Llama => fault := LlamaOnEnd(attributes, access, parsers, response);
    case Titan => fault := TitanOnEnd(attributes, access, parsers, response);
  }

  // ------------------------------------------------------------ properties

  /** The three sampling keys and the finish reason key are four different attributes. */
  lemma RuntimeKeysDistinct()
    ensures K.AwsBedrockRuntimeMaxTokenCount != K.AwsBedrockRuntimeTemperature
    ensures K.AwsBedrockRuntimeMaxTokenCount != K.AwsBedrockRuntimeTopP
    ensures K.AwsBedrockRuntimeTemperature != K.AwsBedrockRuntimeTopP
    ensures K.AwsBedrockFinishReasons !in SamplingKeys
  {
  }

  /** Attributes outside `keys` are the same in both maps. */
  ghost predicate SameOutside(before: Attrs, after: Attrs, keys: set<string>) {
    forall k :: k !in keys ==> (k in after <==> k in before) && (k in after ==> after[k] == before[k])
  }

  /** Attribute `key` is the same in both maps. */
  predicate SameAt(before: Attrs, after: Attrs, key: string) {
    (key in after <==> key in before) && (key in after ==> after[key] == before[key])
  }

  /** A start hook writes only the sampling keys, whatever the body holds and however the hook ends. */
  lemma StartWritesOnlySamplingKeys(model: RuntimeModel, parsers: Parsers, attrs: Attrs, payload: Try<seq<bv8>>)
    ensures SameOutside(attrs, model.StartFrom(parsers, attrs, payload).attrs, SamplingKeys)
  {
  }

  /** An end hook writes only the finish reason, whatever the body holds and however the hook ends. */
  lemma EndWritesOnlyFinishReason(model: RuntimeModel, parsers: Parsers, attrs: Attrs, payload: Try<seq<bv8>>)
    ensures SameOutside(attrs, model.EndFrom(parsers, attrs, payload).attrs, {K.AwsBedrockFinishReasons})
  {
  }

  /**
   * A hook ends with an exception exactly when the body is missing, is not
   * JSON (not a JSON object, for Llama), or, for Llama alone, holds a field
   * its org.json getter cannot read; the Jackson decoders never throw after
   * parsing, so when they throw nothing has been recorded.
   */
  lemma JacksonDecodersFailOnlyBeforeRecording(model: RuntimeModel, parsers: Parsers, attrs: Attrs, payload: Try<seq<bv8>>)
    requires model != Llama
    ensures model.StartFrom(parsers, attrs, payload).fault.Some? <==>
              payload.Throws? || parsers.jackson(payload.value).None?
    ensures model.EndFrom(parsers, attrs, payload).fault.Some? <==>
              payload.Throws? || parsers.jackson(payload.value).None?
    ensures model.StartFrom(parsers, attrs, payload).fault.Some? ==> model.StartFrom(parsers, attrs, payload).attrs == attrs
    ensures model.EndFrom(parsers, attrs, payload).fault.Some? ==> model.EndFrom(parsers, attrs, payload).attrs == attrs
  {
  }

  /** The exception a hook can end with: a null body, malformed text, or an org.json read. */
  lemma HookFaults(model: RuntimeModel, parsers: Parsers, attrs: Attrs, payload: Try<seq<bv8>>)
    requires payload.Throws? ==> payload.fault == NullPointer
    ensures model.StartFrom(parsers, attrs, payload).fault.Some? ==>
              model.StartFrom(parsers, attrs, payload).fault.value in {NullPointer, JsonProcessing, JsonFormat}
    ensures model.EndFrom(parsers, attrs, payload).fault.Some? ==>
              model.EndFrom(parsers, attrs, payload).fault.value in {NullPointer, JsonProcessing, JsonFormat}
  {
    if model == Llama && payload.Ok? {
      var body := NewJsonObject(parsers, payload.value);
      if body.Ok? {
        LlamaFaultsAreJsonFormat(attrs, body.value);
      }
    }
  }

  /** Every exception the Llama hooks raise after parsing is org.json's JSONException. */
  lemma LlamaFaultsAreJsonFormat(attrs: Attrs, o: map<string, Json>)
    ensures LlamaStart(attrs, o).fault.Some? ==> LlamaStart(attrs, o).fault == Some(JsonFormat)
    ensures LlamaEnd(attrs, o).fault.Some? ==> LlamaEnd(attrs, o).fault == Some(JsonFormat)
  {
  }

  /**
   * Claude's max token count: max_tokens_to_sample when it is an int, else
   * max_tokens when that is, else nothing is written.
   */
  lemma ClaudeMaxTokensPrecedence(attrs: Attrs, node: Json)
    ensures var r := ClaudeStart(attrs, node);
      var key := K.AwsBedrockRuntimeMaxTokenCount;
      (if HasField(node, "max_tokens_to_sample") && IsIntNode(node.fields["max_tokens_to_sample"]) then
         key in r && r[key] == LongValue(node.fields["max_tokens_to_sample"].i)
       else if HasField(node, "max_tokens") && IsIntNode(node.fields["max_tokens"]) then
         key in r && r[key] == LongValue(node.fields["max_tokens"].i)
       else SameAt(attrs, r, key))
  {
    RuntimeKeysDistinct();
  }

  /**
   * Claude records a temperature or top_p only when it is written with a
   * fraction or an exponent: an integer such as 1 leaves the attribute as it was.
   */
  lemma ClaudeSamplingNeedsFraction(attrs: Attrs, node: Json)
    ensures var r := ClaudeStart(attrs, node);
      (if HasField(node, "temperature") && node.fields["temperature"].JNum? then
         K.AwsBedrockRuntimeTemperature in r && r[K.AwsBedrockRuntimeTemperature] == DoubleValue(NumDouble(node.fields["temperature"].n))
       else SameAt(attrs, r, K.AwsBedrockRuntimeTemperature))
      && (if HasField(node, "top_p") && node.fields["top_p"].JNum? then
         K.AwsBedrockRuntimeTopP in r && r[K.AwsBedrockRuntimeTopP] == DoubleValue(NumDouble(node.fields["top_p"].n))
       else SameAt(attrs, r, K.AwsBedrockRuntimeTopP))
  {
    RuntimeKeysDistinct();
  }

  /** Claude's finish reason is stop_reason when that is a string, and nothing otherwise. */
  lemma ClaudeFinishReason(attrs: Attrs, node: Json)
    ensures var r := ClaudeEnd(attrs, node);
      if HasField(node, "stop_reason") && node.fields["stop_reason"].JStr? then
        r == attrs[K.AwsBedrockFinishReasons := StrValue(node.fields["stop_reason"].s)]
      else r == attrs
  {
  }

  /**
   * The Llama start hook completes exactly when every sampling field present
   * can be read by its org.json getter, and then it has recorded each present one.
   */
  lemma LlamaStartCompletesIffReadable(attrs: Attrs, o: map<string, Json>)
    ensures var r := LlamaStart(attrs, o);
      r.fault.None? <==>
        (Has(o, "max_gen_len") ==> GetInt(o, "max_gen_len").Ok?)
        && (Has(o, "temperature") ==> GetDouble(o, "temperature").Ok?)
        && (Has(o, "top_p") ==> GetDouble(o, "top_p").Ok?)
    ensures var r := LlamaStart(attrs, o);
      r.fault.None? ==>
        (Has(o, "max_gen_len") ==> r.attrs[K.AwsBedrockRuntimeMaxTokenCount] == LongValue(GetInt(o, "max_gen_len").value))
        && (Has(o, "temperature") ==> r.attrs[K.AwsBedrockRuntimeTemperature] == DoubleValue(GetDouble(o, "temperature").value))
        && (Has(o, "top_p") ==> r.attrs[K.AwsBedrockRuntimeTopP] == DoubleValue(GetDouble(o, "top_p").value))
  {
    RuntimeKeysDistinct();
  }

  /**
   * A Llama temperature the getter cannot read ends the hook after the max
   * token count was recorded: the exception does not undo the earlier put,
   * and top_p is never looked at.
   */
  lemma LlamaKeepsEarlierPuts(attrs: Attrs, o: map<string, Json>)
    requires Has(o, "max_gen_len") && GetInt(o, "max_gen_len").Ok?
    requires Has(o, "temperature") && GetDouble(o, "temperature").Throws?
    ensures var r := LlamaStart(attrs, o);
      r.fault == Some(JsonFormat)
      && r.attrs == attrs[K.AwsBedrockRuntimeMaxTokenCount := LongValue(GetInt(o, "max_gen_len").value)]
  {
  }

  /** A stop_reason Llama's getString cannot read, JSON null included, ends the end hook with a JSONException. */
  lemma LlamaFinishReason(attrs: Attrs, o: map<string, Json>)
    ensures var r := LlamaEnd(attrs, o);
      if !Has(o, "stop_reason") then r == Outcome(attrs, None)
      else if o["stop_reason"].JStr? then r == Outcome(attrs[K.AwsBedrockFinishReasons := StrValue(o["stop_reason"].s)], None)
      else r == Outcome(attrs, Some(JsonFormat))
  {
  }

  /** Titan reads nothing unless textGenerationConfig is a JSON object. */
  lemma TitanNeedsConfigObject(attrs: Attrs, node: Json)
    requires !(HasField(node, "textGenerationConfig") && node.fields["textGenerationConfig"].JObj?)
    ensures TitanStart(attrs, node) == attrs
  {
  }

  /**
   * Titan records every sampling field the config object holds, read
   * leniently: a max token count that is not a number is recorded as its
   * Jackson reading (a text through parseAsInt; 0 for null or a container).
   */
  lemma TitanRecordsPresentFields(attrs: Attrs, node: Json)
    requires HasField(node, "textGenerationConfig") && node.fields["textGenerationConfig"].JObj?
    ensures var c := node.fields["textGenerationConfig"]; var r := TitanStart(attrs, node);
      (if HasField(c, "maxTokenCount") then
         r[K.AwsBedrockRuntimeMaxTokenCount] == LongValue(AsInt(c.fields["maxTokenCount"]))
       else SameAt(attrs, r, K.AwsBedrockRuntimeMaxTokenCount))
      && (if HasField(c, "temperature") then
         r[K.AwsBedrockRuntimeTemperature] == DoubleValue(AsDouble(c.fields["temperature"]))
       else SameAt(attrs, r, K.AwsBedrockRuntimeTemperature))
      && (if HasField(c, "topP") then
         r[K.AwsBedrockRuntimeTopP] == DoubleValue(AsDouble(c.fields["topP"]))
       else SameAt(attrs, r, K.AwsBedrockRuntimeTopP))
  {
    RuntimeKeysDistinct();
  }

  /**
   * Titan's finish reason comes from the first result alone: when the first
   * result has no completionReason, the later results are never looked at.
   */
  lemma TitanFinishReasonFromFirstResult(attrs: Attrs, node: Json, later: seq<Json>)
    requires HasField(node, "results") && node.fields["results"].JArr?
    ensures var results := node.fields["results"].items; var r := TitanEnd(attrs, node);
      if |results| > 0 && HasField(results[0], "completionReason") then
        r == attrs[K.AwsBedrockFinishReasons := StrValue(AsText(results[0].fields["completionReason"]))]
      else r == attrs
    ensures var results := node.fields["results"].items;
      |results| > 0 && !HasField(results[0], "completionReason") ==>
        TitanEnd(attrs, JObj(node.fields["results" := JArr(results[..1] + later)])) == attrs
  {
    var results := node.fields["results"].items;
    if |results| > 0 {
      assert (results[..1] + later)[0] == results[0];
    }
  }
}
