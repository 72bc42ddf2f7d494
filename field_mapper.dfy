/**
 * FieldMapper of the AWS SDK 2.2 instrumentation: for each mapping of a phase,
 * follow its field path through the SDK object, serialize what it reaches, and
 * write the text to the span when it is not empty.
 */
module FieldMapper {
  import opened Outcomes
  import opened JavaText
  import opened Json
  import opened AwsExperimentalAttributesV2
  import opened AwsSdkRequestType
  import opened Serializer

  /** A span's attributes, written one at a time. */
  class Span {
    var attributes: map<string, string>

    constructor()
      ensures attributes == map[]
    {
      attributes := map[];
    }

    /** Span.setAttribute(key, value): the key now holds the value. */
    method SetAttribute(key: string, value: string)
      modifies this
      ensures attributes == old(attributes)[key := value]
    {
      attributes := attributes[key := value];
    }
  }

  /**
   * An AwsSdkRequest: its request type and its own mappings, grouped by
   * direction like the table's (AwsSdkRequest.java is not part of this model).
   */
  datatype AwsSdkRequest = AwsSdkRequest(requestType: RequestType, own: seq<FieldMapping>)
  {
    /** request.fields(type). */
    function Fields(d: Direction): seq<FieldMapping> {
      GroupByType(own).Get(d)
    }
  }

  /**
   * The accessor the method-handle factory finds for a value's class and a field
   * name, invoked on the value; a missing accessor or a failing call throws.
   */
  type Accessor = (Value, string) -> Try<Option<Value>>

  /** SdkRequest/SdkResponse.getValueForField(field, Object.class).orElse(null). */
  type Provider = string -> Option<Value>

  /** next(current, fieldName): the accessor's result, and null whenever it throws. */
  function Next(access: Accessor, current: Value, name: string): (r: Option<Value>)
    ensures access(current, name).Throws? ==> r.None?
    ensures access(current, name).Ok? ==> r == access(current, name).value
  {
    match access(current, name)
    case Ok(v) => v
    case Throws(_) => None
  }

  /** The value reached from `target` by the segments path[i..], stopping at the first null. */
  function WalkFrom(access: Accessor, target: Option<Value>, path: seq<string>, i: nat): Option<Value>
    requires i <= |path|
    decreases |path| - i
  {
    if i == |path| || target.None? then target
    else WalkFrom(access, Next(access, target.value, path[i]), path, i + 1)
  }

  /** The value a non-empty path resolves to: its first segment read from the object, the rest through next. */
  function Resolve(provider: Provider, access: Accessor, path: seq<string>): Option<Value>
    requires |path| > 0
  {
    WalkFrom(access, provider(path[0]), path, 1)
  }

  /** The text for an attribute: the two-argument serializer for gen_ai attributes, the one-argument one otherwise. */
  function ValueFor(attribute: string, target: Value, floatText: JavaFloat -> string): Try<Option<string>>
  {
    if Contains(attribute, "gen_ai") then Ok(SerializeNamed(attribute, Some(target), floatText))
    else SerializeValue(target)
  }

  /**
   * One mapping applied to a span's attributes: nothing when the path resolves
   * to null; otherwise gen_ai.system for a gen_ai attribute, and the attribute
   * itself when its text is not empty. An empty path (get(0)) or a serializer
   * failure propagates, before anything is written for this mapping.
   */
  function Apply(attrs: map<string, string>, m: FieldMapping, provider: Provider, access: Accessor,
                 floatText: JavaFloat -> string): Try<map<string, string>>
  {
    var path := m.Fields();
    if |path| == 0 then Throws(IndexOutOfBounds)
    else match Resolve(provider, access, path)
      case None => Ok(attrs)
      case Some(target) =>
        var marked := if Contains(m.attribute, "gen_ai") then attrs[GenAiSystem := "AWS Bedrock"] else attrs;
        match ValueFor(m.attribute, target, floatText)
        case Throws(f) => Throws(f)
        case Ok(value) => Ok(if value.Some? && value.value != "" then marked[m.attribute := value.value] else marked)
  }

  /** The attributes after a run of mappings, and the failure that cut it short, if any. */
  datatype Run = Run(attrs: map<string, string>, fault: Option<Fault>)

  /** The mappings applied in order, stopping at the first failure with what was written so far. */
  function ApplyAll(attrs: map<string, string>, ms: seq<FieldMapping>, provider: Provider, access: Accessor,
                    floatText: JavaFloat -> string): Run
    decreases |ms|
  {
    if |ms| == 0 then Run(attrs, None)
    else match Apply(attrs, ms[0], provider, access, floatText)
      case Throws(f) => Run(attrs, Some(f))
      case Ok(next) => ApplyAll(next, ms[1..], provider, access, floatText)
  }

  /** The mappings of a phase: the request's own of that direction, then its type's. */
  function Plan(request: AwsSdkRequest, d: Direction): seq<FieldMapping> {
    request.Fields(d) + AwsSdkRequestType.Fields(request.requestType, d)
  }

  class FieldMapper {
    const access: Accessor
    const floatText: JavaFloat -> string

    constructor(access: Accessor, floatText: JavaFloat -> string)
      ensures this.access == access && this.floatText == floatText
    {
      this.access := access;
      this.floatText := floatText;
    }

    /** mapToAttributes(provider, fieldMapping, span). */
    method MapField(provider: Provider, m: FieldMapping, span: Span) returns (fault: Option<Fault>)
      modifies span
      ensures Apply(old(span.attributes), m, provider, access, floatText).Ok? ==>
        fault.None? && span.attributes == Apply(old(span.attributes), m, provider, access, floatText).value
      ensures Apply(old(span.attributes), m, provider, access, floatText).Throws? ==>
        fault == Some(Apply(old(span.attributes), m, provider, access, floatText).fault)
        && span.attributes == old(span.attributes)
    {
      var path := m.Fields();
      if |path| == 0 {
        return Some(IndexOutOfBounds);
      }
      var target := provider(path[0]);
      var i := 1;
      while i < |path| && target.Some?
        invariant 1 <= i <= |path|
        invariant WalkFrom(access, target, path, i) == Resolve(provider, access, path)
        decreases |path| - i
      {
        target := Next(access, target.value, path[i]);
        i := i + 1;
      }
      if target.Some? {
        var value: Option<string>;
        if Contains(m.attribute, "gen_ai") {
          value := SerializeNamed(m.attribute, target, floatText);
          span.SetAttribute(GenAiSystem, "AWS Bedrock");
        } else {
          var serialized := SerializeValue(target.value);
          if serialized.Throws? {
            return Some(serialized.fault);
          }
          value := serialized.value;
        }
        if value.Some? && value.value != "" {
          span.SetAttribute(m.attribute, value.value);
        }
      }
      return None;
    }

    /** The loop of mapToAttributes(provider, type, request, span) over one list of mappings. */
    method MapFields(provider: Provider, ms: seq<FieldMapping>, span: Span) returns (fault: Option<Fault>)
      modifies span
      ensures Run(span.attributes, fault) == ApplyAll(old(span.attributes), ms, provider, access, floatText)
    {
      var i := 0;
      while i < |ms|
        invariant 0 <= i <= |ms|
        invariant ApplyAll(span.attributes, ms[i..], provider, access, floatText)
          == ApplyAll(old(span.attributes), ms, provider, access, floatText)
        decreases |ms| - i
      {
        assert ms[i..][1..] == ms[i + 1..];
        fault := MapField(provider, ms[i], span);
        if fault.Some? {
          return;
        }
        i := i + 1;
      }
      return None;
    }

    /** mapToAttributes(provider, type, request, span): the request's own mappings, then its type's. */
    method MapToAttributes(provider: Provider, d: Direction, request: AwsSdkRequest, span: Span) returns (fault: Option<Fault>)
      modifies span
      ensures Run(span.attributes, fault) == ApplyAll(old(span.attributes), Plan(request, d), provider, access, floatText)
    {
      ApplyAllAppend(span.attributes, request.Fields(d), AwsSdkRequestType.Fields(request.requestType, d), provider, access, floatText);
      fault := MapFields(provider, request.Fields(d), span);
      if fault.Some? {
        return;
      }
      fault := MapFields(provider, AwsSdkRequestType.Fields(request.requestType, d), span);
    }

    /** mapToAttributes(sdkRequest, request, span): the request-direction mappings, read from the SDK request. */
    method MapRequest(sdkRequest: Provider, request: AwsSdkRequest, span: Span) returns (fault: Option<Fault>)
      modifies span
      ensures Run(span.attributes, fault) == ApplyAll(old(span.attributes), Plan(request, Request), sdkRequest, access, floatText)
    {
      fault := MapToAttributes(sdkRequest, Request, request, span);
    }

    /** mapToAttributes(sdkResponse, request, span): the response-direction mappings, read from the SDK response. */
    method MapResponse(sdkResponse: Provider, request: AwsSdkRequest, span: Span) returns (fault: Option<Fault>)
      modifies span
      ensures Run(span.attributes, fault) == ApplyAll(old(span.attributes), Plan(request, Response), sdkResponse, access, floatText)
    {
      fault := MapToAttributes(sdkResponse, Response, request, span);
    }
  }

  /** Running two lists is running the first, then, unless it failed, the second. */
  lemma {:induction false} ApplyAllAppend(attrs: map<string, string>, xs: seq<FieldMapping>, ys: seq<FieldMapping>,
                                          provider: Provider, access: Accessor, floatText: JavaFloat -> string)
    ensures var first := ApplyAll(attrs, xs, provider, access, floatText);
      ApplyAll(attrs, xs + ys, provider, access, floatText)
      == if first.fault.Some? then first else ApplyAll(first.attrs, ys, provider, access, floatText)
    decreases |xs|
  {
    if |xs| == 0 {
      assert xs + ys == ys;
    } else {
      assert (xs + ys)[0] == xs[0];
      assert (xs + ys)[1..] == xs[1..] + ys;
      match Apply(attrs, xs[0], provider, access, floatText)
      case Throws(_) =>
      case Ok(next) => ApplyAllAppend(next, xs[1..], ys, provider, access, floatText);
    }
  }

  // ---------------------------------------------------------------- properties

  /** Once the walk reaches null it stays null: later segments are never read. */
  lemma {:induction false} NullStopsTraversal(access: Accessor, path: seq<string>, i: nat)
    requires i <= |path|
    ensures WalkFrom(access, None, path, i) == None
    decreases |path| - i
  {
  }

  /** A path that resolves to null writes nothing. */
  lemma NullTargetWritesNothing(attrs: map<string, string>, m: FieldMapping, provider: Provider, access: Accessor,
                                floatText: JavaFloat -> string)
    requires |m.Fields()| > 0 && Resolve(provider, access, m.Fields()) == None
    ensures Apply(attrs, m, provider, access, floatText) == Ok(attrs)
  {
  }

  /**
   * A mapping writes at most two keys: its own attribute, with a non-empty text
   * that is the serializer's result, and, for a gen_ai attribute,
   * gen_ai.system = "AWS Bedrock"; every other attribute is kept.
   */
  lemma ApplyWritesOnlyItsAttribute(attrs: map<string, string>, m: FieldMapping, provider: Provider, access: Accessor,
                                    floatText: JavaFloat -> string)
    requires Apply(attrs, m, provider, access, floatText).Ok?
    ensures var r := Apply(attrs, m, provider, access, floatText).value;
      && attrs.Keys <= r.Keys
      && forall k :: k in r ==>
        || (k in attrs && r[k] == attrs[k])
        || (k == m.attribute && r[k] != ""
            && ValueFor(m.attribute, Resolve(provider, access, m.Fields()).value, floatText) == Ok(Some(r[k])))
        || (k == GenAiSystem && r[k] == "AWS Bedrock" && Contains(m.attribute, "gen_ai"))
  {
  }

  /**
   * A non-empty text is always written, under the mapping's attribute; an empty
   * or null text leaves the attribute as it was.
   */
  lemma ApplyWritesNonEmptyText(attrs: map<string, string>, m: FieldMapping, provider: Provider, access: Accessor,
                                floatText: JavaFloat -> string, target: Value)
    requires |m.Fields()| > 0 && Resolve(provider, access, m.Fields()) == Some(target)
    requires ValueFor(m.attribute, target, floatText).Ok?
    ensures var value := ValueFor(m.attribute, target, floatText).value;
      var r := Apply(attrs, m, provider, access, floatText);
      && r.Ok?
      && (value.Some? && value.value != "" ==> r.value[m.attribute] == value.value)
      && (!(value.Some? && value.value != "") && m.attribute != GenAiSystem ==>
            (m.attribute in r.value <==> m.attribute in attrs)
            && (m.attribute in attrs ==> r.value[m.attribute] == attrs[m.attribute]))
  {
  }

  /**
   * A gen_ai attribute never aborts the mapping, and a non-null target marks the
   * span with gen_ai.system = "AWS Bedrock" even when its own text is empty.
   */
  lemma GenAiMarksSystem(attrs: map<string, string>, m: FieldMapping, provider: Provider, access: Accessor,
                         floatText: JavaFloat -> string)
    requires Contains(m.attribute, "gen_ai") && |m.Fields()| > 0
    ensures Apply(attrs, m, provider, access, floatText).Ok?
    ensures Resolve(provider, access, m.Fields()).Some? && m.attribute != GenAiSystem ==>
      Apply(attrs, m, provider, access, floatText).value[GenAiSystem] == "AWS Bedrock"
  {
  }

  /**
   * A mapping aborts exactly when its path is empty or when a non-gen_ai
   * attribute resolves to a value that reaches SdkBytes.
   */
  lemma ApplyFailsOnlyOnBytes(attrs: map<string, string>, m: FieldMapping, provider: Provider, access: Accessor,
                              floatText: JavaFloat -> string)
    ensures Apply(attrs, m, provider, access, floatText).Throws? <==>
      || |m.Fields()| == 0
      || (&& !Contains(m.attribute, "gen_ai")
          && Resolve(provider, access, m.Fields()).Some?
          && ReachesBytes(Resolve(provider, access, m.Fields()).value))
  {
  }

  /** A phase applies exactly the mappings of its direction, from the request and from its type. */
  lemma PlanHasOnlyItsDirection(request: AwsSdkRequest, d: Direction)
    ensures forall m :: m in Plan(request, d) <==> (m in request.own || m in Declared(request.requestType)) && m.direction == d
  {
    OfDirectionMembers(request.own, d);
    FieldsAreTheDirectionGroup(request.requestType, d);
  }

  /** A mapping of the table reads exactly one field of the SDK object: the one its value names. */
  lemma TableMappingReadsOneField(t: RequestType, m: FieldMapping, provider: Provider, access: Accessor)
    requires m in Declared(t)
    ensures |m.Fields()| == 1 && Resolve(provider, access, m.Fields()) == provider(m.value)
  {
    AllPathsAreSingleFields(t);
  }

  /** A run that fails keeps every write made before the failure; one that does not fail applied every mapping. */
  lemma {:induction false} RunStopsAtFirstFault(attrs: map<string, string>, ms: seq<FieldMapping>, provider: Provider,
                                                access: Accessor, floatText: JavaFloat -> string)
    ensures var run := ApplyAll(attrs, ms, provider, access, floatText);
      run.fault.Some? <==> exists i :: (
        && 0 <= i < |ms|
        && ApplyAll(attrs, ms[..i], provider, access, floatText).fault.None?
        && Apply(ApplyAll(attrs, ms[..i], provider, access, floatText).attrs, ms[i], provider, access, floatText).Throws?)
    decreases |ms|
  {
    if |ms| > 0 {
      assert ms[..0] == [];
      match Apply(attrs, ms[0], provider, access, floatText)
      case Throws(_) =>
      case Ok(next) =>
        RunStopsAtFirstFault(next, ms[1..], provider, access, floatText);
        forall i | 1 <= i <= |ms|
          ensures ApplyAll(attrs, ms[..i], provider, access, floatText) == ApplyAll(next, ms[1..][..i - 1], provider, access, floatText)
        {
          assert ms[..i][0] == ms[0] && ms[..i][1..] == ms[1..][..i - 1];
        }
        var run := ApplyAll(attrs, ms, provider, access, floatText);
        if run.fault.Some? {
          var j :| 0 <= j < |ms| - 1 && ApplyAll(next, ms[1..][..j], provider, access, floatText).fault.None?
            && Apply(ApplyAll(next, ms[1..][..j], provider, access, floatText).attrs, ms[1..][j], provider, access, floatText).Throws?;
          assert ms[j + 1] == ms[1..][j];
        } else {
          forall i | 0 <= i < |ms| && ApplyAll(attrs, ms[..i], provider, access, floatText).fault.None?
            ensures Apply(ApplyAll(attrs, ms[..i], provider, access, floatText).attrs, ms[i], provider, access, floatText).Ok?
          {
            if i > 0 {
              assert ms[i] == ms[1..][i - 1];
            }
          }
        }
    }
  }
}
