/**
 * RequestAccess of the AWS SDK 1.11 instrumentation: a per-class profile of
 * optional accessor methods, found by name and exact return type the first
 * time a class is seen and memoized afterwards, and the static getters that
 * invoke an accessor and turn every failure into null.
 */
module RequestAccess {
  import opened Outcomes
  import opened ByteBuffers

  /** The declared return type of a method, as method lookup compares it. */
  datatype ReturnType = StringType | ByteBufferType | OtherType(name: string)

  /** A public, no-argument instance method of a class. */
  datatype Signature = Signature(name: string, returnType: ReturnType)

  /**
   * A runtime class: its getName(), its getSimpleName(), and the public
   * no-argument instance methods reflection can find on it.
   */
  datatype JClass = JClass(name: string, simpleName: string, methods: set<Signature>)

  /** The nineteen accessors a profile may hold. */
  datatype Accessor =
    | BucketName | QueueUrl | QueueName | StreamName | TableName | StreamConsumerName
    | TopicArn | TargetArn | SecretArn | StateMachineArn | ActivityArn | FunctionName
    | ResourceEventMappingId | AgentId | KnowledgeBaseId | DataSourceId | GuardrailId
    | Body | ModelId

  /** Every accessor but the body returns a String. */
  type TextAccessor = a: Accessor | a != Body witness BucketName

  const AllAccessors: set<Accessor> := {
    BucketName, QueueUrl, QueueName, StreamName, TableName, StreamConsumerName,
    TopicArn, TargetArn, SecretArn, StateMachineArn, ActivityArn, FunctionName,
    ResourceEventMappingId, AgentId, KnowledgeBaseId, DataSourceId, GuardrailId,
    Body, ModelId
  }

  /** The getter's own name, without "get": the name of the value it reads. */
  function FieldName(a: Accessor): string {
    match a
    case BucketName => "BucketName"
    case QueueUrl => "QueueUrl"
    case QueueName => "QueueName"
    case StreamName => "StreamName"
    case TableName => "TableName"
    case StreamConsumerName => "StreamConsumerName"
    case TopicArn => "TopicArn"
    case TargetArn => "TargetArn"
    case SecretArn => "SecretArn"
    case StateMachineArn => "StateMachineArn"
    case ActivityArn => "ActivityArn"
    case FunctionName => "FunctionName"
    case ResourceEventMappingId => "ResourceEventMappingId"
    case AgentId => "AgentId"
    case KnowledgeBaseId => "KnowledgeBaseId"
    case DataSourceId => "DataSourceId"
    case GuardrailId => "GuardrailId"
    case Body => "Body"
    case ModelId => "ModelId"
  }

  /** What the constructor probes for each accessor after "get": its own name except for three. */
  function ProbedSuffix(a: Accessor): string {
    match a
    case BucketName => "BucketName"
    case QueueUrl => "QueueUrl"
    case QueueName => "QueueName"
    case StreamName => "StreamName"
    case TableName => "TableName"
    case StreamConsumerName => "ConsumerName"
    case TopicArn => "TopicArn"
    case TargetArn => "TargetArn"
    case SecretArn => "ARN"
    case StateMachineArn => "StateMachineArn"
    case ActivityArn => "ActivityArn"
    case FunctionName => "FunctionName"
    case ResourceEventMappingId => "UUID"
    case AgentId => "AgentId"
    case KnowledgeBaseId => "KnowledgeBaseId"
    case DataSourceId => "DataSourceId"
    case GuardrailId => "GuardrailId"
    case Body => "Body"
    case ModelId => "ModelId"
  }

  /** The method name the constructor probes for each accessor. */
  function MethodName(a: Accessor): string {
    "get" + ProbedSuffix(a)
  }

  /** The return type the constructor demands of each accessor. */
  function ReturnOf(a: Accessor): ReturnType {
    if a == Body then ByteBufferType else StringType
  }

  /** findAccessorOrNull for every accessor: present exactly when the class has that name with that return type. */
  function Probe(c: JClass): (p: set<Accessor>)
    ensures forall a :: a in p <==> Signature(MethodName(a), ReturnOf(a)) in c.methods
  {
    set a | a in AllAccessors && Signature(MethodName(a), ReturnOf(a)) in c.methods
  }

  /** invokeOrNull: null for an absent accessor, the value returned otherwise, null when the call throws. */
  function InvokeOrNull(present: bool, outcome: Try<Option<string>>): (r: Option<string>)
    ensures !present || outcome.Throws? ==> r == None
    ensures present && outcome.Ok? ==> r == outcome.value
  {
    if !present then None
    else match outcome
      case Ok(v) => v
      case Throws(_) => None
  }

  /**
   * A Java object the getters are applied to: its class, what calling each
   * String-returning method of that class returns or throws, what getBody
   * returns or throws, and, for an AmazonWebServiceResponse, its request id.
   */
  datatype JavaObject = JavaObject(
    cls: JClass,
    calls: string -> Try<Option<string>>,
    body: Try<Option<ByteBuffer>>,
    requestId: Option<Option<string>>)

  /** The static getter for `a` on a non-null object. */
  function Invoke(obj: JavaObject, a: TextAccessor): (r: Option<string>)
    ensures r.Some? <==> a in Probe(obj.cls) && obj.calls(MethodName(a)).Ok? && obj.calls(MethodName(a)).value.Some?
    ensures r.Some? ==> obj.calls(MethodName(a)) == Ok(r)
  {
    InvokeOrNull(a in Probe(obj.cls), obj.calls(MethodName(a)))
  }

  /** The five getters that return null for a null object instead of dereferencing it. */
  predicate NullGuarded(a: Accessor) {
    a in {SecretArn, ResourceEventMappingId, FunctionName, StateMachineArn, ActivityArn}
  }

  /** The static getter for `a` on a possibly null object. */
  function Get(obj: Option<JavaObject>, a: TextAccessor): (r: Try<Option<string>>)
    ensures r.Throws? <==> obj.None? && !NullGuarded(a)
    ensures r.Throws? ==> r.fault == NullPointer
    ensures obj.None? && NullGuarded(a) ==> r == Ok(None)
    ensures obj.Some? ==> r == Ok(Invoke(obj.value, a))
  {
    match obj
    case None => if NullGuarded(a) then Ok(None) else Throws(NullPointer)
    case Some(o) => Ok(Invoke(o, a))
  }

  /** getBody on a non-null object: the buffer, or null when the accessor is absent or the call throws. */
  function BodyOf(obj: JavaObject): (r: Option<ByteBuffer>)
    ensures r.Some? <==> Body in Probe(obj.cls) && obj.body.Ok? && obj.body.value.Some?
    ensures r.Some? ==> obj.body == Ok(r)
  {
    if Body in Probe(obj.cls) && obj.body.Ok? then obj.body.value else None
  }

  /** The memo behind every getter: one profile per class, filled on first use. */
  class RequestAccessCache {
    var profiles: map<JClass, set<Accessor>>

    /** Every memoized profile is the one probing its class gives. */
    ghost predicate Valid()
      reads this
    {
      forall c :: c in profiles ==> profiles[c] == Probe(c)
    }

    constructor()
      ensures Valid() && profiles == map[]
    {
      profiles := map[];
    }

    /** ClassValue.get: the memoized profile, computed and stored on the first lookup of the class. */
    method Lookup(c: JClass) returns (p: set<Accessor>)
      requires Valid()
      modifies this
      ensures Valid()
      ensures p == Probe(c)
      ensures c in old(profiles) ==> profiles == old(profiles)
      ensures profiles == old(profiles)[c := p]
    {
      if c in profiles {
        p := profiles[c];
      } else {
        p := Probe(c);
        profiles := profiles[c := p];
      }
    }

    /** A String getter: the null guard where there is one, then the class lookup, then invokeOrNull. */
    method GetText(obj: Option<JavaObject>, a: TextAccessor) returns (r: Try<Option<string>>)
      requires Valid()
      modifies this
      ensures Valid()
      ensures r == Get(obj, a)
      ensures obj.None? ==> profiles == old(profiles)
      ensures obj.Some? ==> profiles == old(profiles)[obj.value.cls := Probe(obj.value.cls)]
    {
      if obj.None? {
        if NullGuarded(a) {
          r := Ok(None);
        } else {
          r := Throws(NullPointer);
        }
        return;
      }
      var p := Lookup(obj.value.cls);
      r := Ok(InvokeOrNull(a in p, obj.value.calls(MethodName(a))));
    }

    /** getBody: the class lookup, then the call, with every throwable (an absent accessor included) caught as null. */
    method GetBody(obj: Option<JavaObject>) returns (r: Try<Option<ByteBuffer>>)
      requires Valid()
      modifies this
      ensures Valid()
      ensures obj.None? ==> r == Throws(NullPointer) && profiles == old(profiles)
      ensures obj.Some? ==> r == Ok(BodyOf(obj.value))
      ensures obj.Some? ==> profiles == old(profiles)[obj.value.cls := Probe(obj.value.cls)]
    {
      if obj.None? {
        r := Throws(NullPointer);
        return;
      }
      var p := Lookup(obj.value.cls);
      if Body in p && obj.value.body.Ok? {
        r := Ok(obj.value.body.value);
      } else {
        r := Ok(None);
      }
    }
  }

  /** The three accessors whose probed name is not "get" followed by their own name. */
  lemma RenamedAccessors(a: Accessor)
    ensures MethodName(a) != "get" + FieldName(a) <==> a in {SecretArn, ResourceEventMappingId, StreamConsumerName}
  {
    GetPrefixCancels(ProbedSuffix(a), FieldName(a));
  }

  /** No two accessors probe the same method, so each is found or missed on its own. */
  lemma MethodNamesDistinct(a: Accessor, b: Accessor)
    requires a != b
    ensures MethodName(a) != MethodName(b)
  {
    GetPrefixCancels(ProbedSuffix(a), ProbedSuffix(b));
  }

  lemma GetPrefixCancels(x: string, y: string)
    ensures "get" + x == "get" + y <==> x == y
  {
    if "get" + x == "get" + y {
      assert x == ("get" + x)[3..];
      assert y == ("get" + y)[3..];
    }
  }

  /** A method of the right name but the wrong return type does not make an accessor, and methods of other names never matter. */
  lemma ProbeNeedsExactSignature(c: JClass, a: Accessor, t: ReturnType, extra: set<Signature>)
    requires t != ReturnOf(a)
    requires forall s :: s in extra ==> forall b :: s.name != MethodName(b)
    ensures a !in Probe(JClass(c.name, c.simpleName, c.methods - {Signature(MethodName(a), ReturnOf(a))} + {Signature(MethodName(a), t)}))
    ensures Probe(JClass(c.name, c.simpleName, c.methods + extra)) == Probe(c)
  {
  }

  /** Whatever the object's methods do, a getter completes normally on a non-null object. */
  lemma GettersNeverThrowOnObjects(obj: JavaObject, a: TextAccessor)
    ensures Get(Some(obj), a).Ok?
    ensures Get(Some(obj), a).value.Some? ==> a in Probe(obj.cls)
  {
  }
}
