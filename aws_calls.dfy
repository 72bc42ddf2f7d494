/**
 * What the AWS SDK 1.11 extractors see of a call: the Request (its service
 * name, endpoint and original request object) and the Response (the
 * unmarshalled response object and the HTTP headers), and the four Bedrock
 * service names they switch on.
 */
module AwsCalls {
  import opened Outcomes
  import opened JavaText
  import opened RequestAccess

  /** com.amazonaws.Request: getServiceName(), getEndpoint() as text, getOriginalRequest(); each may be null. */
  datatype AwsRequest = AwsRequest(serviceName: Option<string>, endpoint: Option<string>, originalRequest: Option<JavaObject>)

  /** com.amazonaws.Response: getAwsResponse(), and the headers of getHttpResponse() (None when that is null). */
  datatype AwsResponse = AwsResponse(awsResponse: Option<JavaObject>, headers: Option<HeaderMap>)

  /** Character.toLowerCase on an ASCII letter; any other character is kept. */
  function LowerAscii(c: char): (l: char)
    ensures 'A' <= c <= 'Z' ==> l as int == c as int + 32
    ensures !('A' <= c <= 'Z') ==> l == c
  {
    if 'A' <= c <= 'Z' then (c as int + 32) as char else c
  }

  /**
   * The text String.CASE_INSENSITIVE_ORDER compares a name by: two header
   * names are the same key exactly when their folds agree.
   */
  function FoldCase(s: string): (r: string)
    ensures |r| == |s|
    ensures forall i :: 0 <= i < |s| ==> r[i] == LowerAscii(s[i])
  {
    seq(|s|, i requires 0 <= i < |s| => LowerAscii(s[i]))
  }

  /** Folding twice changes nothing more: a folded name is its own fold. */
  lemma FoldCaseIdempotent(s: string)
    ensures FoldCase(FoldCase(s)) == FoldCase(s)
  {
  }

  /** No two names of the map fold to the same text. */
  predicate CaseDistinct(h: map<string, string>) {
    forall k1, k2 :: k1 in h && k2 in h && FoldCase(k1) == FoldCase(k2) ==> k1 == k2
  }

  /**
   * HttpResponse.getHeaders(): a TreeMap ordered by CASE_INSENSITIVE_ORDER,
   * so it holds one entry per name up to case.
   */
  type HeaderMap = h: map<string, string> | CaseDistinct(h) witness map[]

  /** TreeMap.get (and containsKey) under that order: the header whose name equals `name` up to case. */
  function HeaderGet(h: HeaderMap, name: string): (r: Option<string>)
    ensures r.Some? <==> exists k :: k in h && FoldCase(k) == FoldCase(name)
    ensures forall k :: k in h && FoldCase(k) == FoldCase(name) ==> r == Some(h[k])
  {
    if exists k :: k in h && FoldCase(k) == FoldCase(name) then
      var k :| k in h && FoldCase(k) == FoldCase(name);
      Some(h[k])
    else None
  }

  /** Names that differ only in the case of their letters find the same header. */
  lemma HeaderGetIgnoresCase(h: HeaderMap, name: string, other: string)
    requires |name| == |other| && forall i :: 0 <= i < |name| ==> LowerAscii(name[i]) == LowerAscii(other[i])
    ensures HeaderGet(h, name) == HeaderGet(h, other)
  {
    assert FoldCase(name) == FoldCase(other);
  }

  const BedrockService := "AmazonBedrock"
  const BedrockAgentService := "AWSBedrockAgent"
  const BedrockAgentRuntimeService := "AWSBedrockAgentRuntime"
  const BedrockRuntimeService := "AmazonBedrockRuntime"

  /** The branch a switch on the service name takes. */
  datatype Service = Bedrock | BedrockAgent | BedrockAgentRuntime | BedrockRuntime | OtherService

  function ServiceOf(name: string): (s: Service)
    ensures s == Bedrock <==> name == BedrockService
    ensures s == BedrockAgent <==> name == BedrockAgentService
    ensures s == BedrockAgentRuntime <==> name == BedrockAgentRuntimeService
    ensures s == BedrockRuntime <==> name == BedrockRuntimeService
  {
    if name == BedrockService then Bedrock
    else if name == BedrockAgentService then BedrockAgent
    else if name == BedrockAgentRuntimeService then BedrockAgentRuntime
    else if name == BedrockRuntimeService then BedrockRuntime
    else OtherService
  }

  /**
   * `getName().split("\\.")[length - 1]`: the last dot-separated piece of a
   * class name; for any name a class can have (not empty, not ending in a
   * dot) it is the text after the last dot.
   */
  function LastSegment(name: string): (r: Try<string>)
    ensures |name| > 0 && name[|name| - 1] != '.' ==> r == Ok(LastPiece(name, '.'))
    ensures r.Throws? ==> r.fault == IndexOutOfBounds
  {
    var parts := Split(name, '.');
    LastPieceIsSuffix(name, '.');
    assert |name| > 0 && name[|name| - 1] != '.' ==> parts == Pieces(name, '.') || parts == [name];
    if |parts| == 0 then Throws(IndexOutOfBounds) else Ok(parts[|parts| - 1])
  }
}
