/**
 * CoralAttributesGetter: the operation name of a Coral job, taken from the
 * request's operation-name attribute or, failing that, from the
 * X-Amz-Requested-Operation header with its first character upper-cased.
 * The other getters read one request attribute each; they are the fields of
 * CoralJob.Request.
 */
module CoralAttributesGetter {
  import opened Outcomes
  import opened CoralJob

  const RequestedOperationHeader := "X-Amz-Requested-Operation"

  /** Character.toUpperCase, on the ASCII letters. */
  function ToUpper(c: char): (u: char)
    ensures 'a' <= c <= 'z' ==> 'A' <= u <= 'Z' && u as int == c as int - 32
    ensures !('a' <= c <= 'z') ==> u == c
  {
    if 'a' <= c <= 'z' then (c as int - 32) as char else c
  }

  /** The header text with its first character upper-cased and the rest unchanged. */
  function Capitalize(s: string): (r: string)
    requires |s| > 0
  {
    [ToUpper(s[0])] + s[1..]
  }

  /**
   * getMethodName: the operation name when the request has one; otherwise the
   * header's value capitalized, null when the header is absent or empty. A
   * request without the headers attribute throws when the fallback reads it.
   */
  function GetMethodName(job: Job): (r: Try<Option<string>>)
    ensures r.Throws? <==> job.request.operationName.None? && job.request.headers.None?
    ensures r.Throws? ==> r.fault == NullPointer
    ensures job.request.operationName.Some? ==> r == Ok(job.request.operationName)
  {
    match job.request.operationName
    case Some(_) => Ok(job.request.operationName)
    case None =>
      match job.request.headers
      case None => Throws(NullPointer)
      case Some(headers) =>
        if RequestedOperationHeader in headers && |headers[RequestedOperationHeader]| > 0
        then Ok(Some(Capitalize(headers[RequestedOperationHeader])))
        else Ok(None)
  }

  /** The header fallback yields a name exactly when the header holds text, and that name is the header's text up to the case of its first letter. */
  lemma HeaderFallback(job: Job, headers: map<string, string>)
    requires job.request.operationName.None? && job.request.headers == Some(headers)
    ensures var r := GetMethodName(job);
      r.Ok?
      && (r.value.Some? <==> RequestedOperationHeader in headers && headers[RequestedOperationHeader] != "")
      && (r.value.Some? ==> var h := headers[RequestedOperationHeader];
            |r.value.value| == |h| && r.value.value[1..] == h[1..] && r.value.value[0] == ToUpper(h[0]))
  {
  }

  /** A name whose first letter is not lower case is its own capitalization, so capitalizing twice changes nothing. */
  lemma CapitalizeIdempotent(s: string)
    requires |s| > 0
    ensures Capitalize(Capitalize(s)) == Capitalize(s)
    ensures !('a' <= s[0] <= 'z') ==> Capitalize(s) == s
  {
    assert Capitalize(s)[1..] == s[1..];
  }

  /** The method name from the header starts with no lower-case letter; the same name set as the operation attribute is returned as it is. */
  lemma HeaderNameAgreesWithOperationName(job: Job, headers: map<string, string>, name: string)
    requires job.request.operationName.None? && job.request.headers == Some(headers)
    requires GetMethodName(job) == Ok(Some(name))
    ensures |name| > 0 && !('a' <= name[0] <= 'z')
    ensures GetMethodName(job.(request := job.request.(operationName := Some(name)))) == Ok(Some(name))
  {
  }
}
