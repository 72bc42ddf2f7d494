/**
 * CoralServerAttributesExtractor: the semantic-convention attributes of a
 * Coral server span, read from the job through CoralAttributesGetter, and
 * the reply's status code at the end. Its span key is always the server key.
 */
module CoralServerAttributes {
  import opened Outcomes
  import opened JavaText
  import opened Attributes
  import opened CoralJob
  import opened CoralAttributesGetter
  import opened NameLists

  const CodeNamespace := "code.namespace"
  const CodeFunction := "code.function"
  const ServerAddress := "server.address"
  const UrlPath := "url.path"
  const HttpUrl := "http.url"
  const ClientAddress := "client.address"
  const HttpMethod := "http.method"
  const HttpUserAgent := "http.user_agent"
  const HttpScheme := "http.scheme"
  const NetPeerIp := "net.peer.ip"
  const RpcService := "rpc.service"
  const RpcMethod := "rpc.method"
  const HttpStatusCode := "http.status_code"

  /** The span keys an extractor may claim; this one claims the server key. */
  datatype SpanKey = KindServer | KindClient | KindConsumer | KindProducer
  const ExtractorSpanKey := KindServer

  /**
   * What each key of onStart holds, in the order onStart writes them, given
   * the method name the getter returned: the code class (never null, being
   * the job's runtime class), then one request attribute per key.
   */
  function StartSources(job: Job, name: Option<string>): seq<(string, Option<string>)> {
    var r := job.request;
    [(CodeNamespace, Some(job.className)), (CodeFunction, name), (ServerAddress, r.host),
     (UrlPath, r.target), (HttpUrl, r.host), (ClientAddress, r.clientIp), (HttpMethod, r.verb),
     (HttpUserAgent, r.userAgent), (HttpScheme, r.protocol), (NetPeerIp, r.remoteAddress),
     (RpcService, r.serviceName), (RpcMethod, name)]
  }

  function Keys(sources: seq<(string, Option<string>)>): seq<string> {
    seq(|sources|, i requires 0 <= i < |sources| => sources[i].0)
  }

  /** `after` holds the pair's value when it has one, and what `before` held otherwise. */
  predicate Holds(before: Attrs, after: Attrs, source: (string, Option<string>)) {
    match source.1
    case Some(v) => source.0 in after && after[source.0] == StrValue(v)
    case None => (source.0 in after <==> source.0 in before) && (source.0 in before ==> after[source.0] == before[source.0])
  }

  /** internalSet of every pair in turn, each skipping a null value. */
  function PutEach(attrs: Attrs, sources: seq<(string, Option<string>)>): Attrs
    decreases |sources|
  {
    if sources == [] then attrs else PutEach(PutText(attrs, sources[0].0, sources[0].1), sources[1..])
  }

  /** The writes of onStart after the code namespace, in source order, with the method name already read. */
  function StartWrites(attrs: Attrs, job: Job, name: Option<string>): Attrs {
    var r := job.request;
    var a1 := PutText(attrs, CodeFunction, name);
    var a2 := PutText(a1, ServerAddress, r.host);
    var a3 := PutText(a2, UrlPath, r.target);
    var a4 := PutText(a3, HttpUrl, r.host);
    var a5 := PutText(a4, ClientAddress, r.clientIp);
    var a6 := PutText(a5, HttpMethod, r.verb);
    var a7 := PutText(a6, HttpUserAgent, r.userAgent);
    var a8 := PutText(a7, HttpScheme, r.protocol);
    var a9 := PutText(a8, NetPeerIp, r.remoteAddress);
    var a10 := PutText(a9, RpcService, r.serviceName);
    PutText(a10, RpcMethod, name)
  }

  /** onStart: the code namespace, then the method name (which may throw), then the rest. */
  function ServerStart(attrs: Attrs, job: Job): Outcome {
    var a := PutText(attrs, CodeNamespace, Some(job.className));
    match GetMethodName(job)
    case Throws(f) => Outcome(a, Some(f))
    case Ok(name) => Outcome(StartWrites(a, job, name), None)
  }

  /** onEnd: the reply's status code as a long; the response is dereferenced, so a null one throws. */
  function ServerEnd(attrs: Attrs, response: Option<Job>): Outcome {
    match response
    case None => Outcome(attrs, Some(NullPointer))
    case Some(job) =>
      match job.reply.statusCode
      case None => Outcome(attrs, None)
      case Some(code) => Outcome(attrs[HttpStatusCode := LongValue(code)], None)
  }

  method OnStart(attributes: AttributesBuilder, job: Job) returns (fault: Option<Fault>)
    modifies attributes
    ensures Outcome(attributes.attrs, fault) == ServerStart(old(attributes.attrs), job)
  {
    attributes.Put(CodeNamespace, Some(job.className));
    var name := GetMethodName(job);
    if name.Throws? {
      return Some(name.fault);
    }
    var r := job.request;
    attributes.Put(CodeFunction, name.value);
    attributes.Put(ServerAddress, r.host);
    attributes.Put(UrlPath, r.target);
    attributes.Put(HttpUrl, r.host);
    attributes.Put(ClientAddress, r.clientIp);
    attributes.Put(HttpMethod, r.verb);
    attributes.Put(HttpUserAgent, r.userAgent);
    attributes.Put(HttpScheme, r.protocol);
    attributes.Put(NetPeerIp, r.remoteAddress);
    attributes.Put(RpcService, r.serviceName);
    name := GetMethodName(job);
    attributes.Put(RpcMethod, name.value);
    fault := None;
  }

  method OnEnd(attributes: AttributesBuilder, response: Option<Job>) returns (fault: Option<Fault>)
    modifies attributes
    ensures Outcome(attributes.attrs, fault) == ServerEnd(old(attributes.attrs), response)
  {
    if response.None? {
      return Some(NullPointer);
    }
    var statusCode := response.value.reply.statusCode;
    if statusCode.Some? {
      attributes.PutLong(HttpStatusCode, statusCode.value);
    }
    fault := None;
  }

  /** The twelve keys of onStart are all different, and none is the status key of onEnd. */
  lemma StartKeysDistinct(job: Job, name: Option<string>)
    ensures Distinct(Keys(StartSources(job, name)))
    ensures HttpStatusCode !in Keys(StartSources(job, name))
  {
    assert Keys(StartSources(job, name)) == [CodeNamespace, CodeFunction, ServerAddress, UrlPath, HttpUrl, ClientAddress,
                                             HttpMethod, HttpUserAgent, HttpScheme, NetPeerIp, RpcService, RpcMethod];
  }

  /**
   * onStart completes exactly when the method name can be read; then every
   * key holds its attribute when the job has it and keeps its earlier value
   * when it does not, and no other key changes.
   */
  lemma ServerStartRecordsEachAttribute(attrs: Attrs, job: Job, name: Option<string>, key: string)
    requires GetMethodName(job) == Ok(name)
    ensures var o := ServerStart(attrs, job);
      o.fault == None
      && (forall i :: 0 <= i < |StartSources(job, name)| ==> Holds(attrs, o.attrs, StartSources(job, name)[i]))
      && (key !in Keys(StartSources(job, name)) ==>
            (key in o.attrs <==> key in attrs) && (key in attrs ==> o.attrs[key] == attrs[key]))
  {
    var sources := StartSources(job, name);
    StartKeysDistinct(job, name);
    assert ServerStart(attrs, job).attrs == PutEach(attrs, sources) by {
      StartWritesFollowTable(PutText(attrs, CodeNamespace, Some(job.className)), job, name);
    }
    forall i | 0 <= i < |sources| ensures Holds(attrs, PutEach(attrs, sources), sources[i]) {
      PutEachHolds(attrs, sources, i);
    }
    if key !in Keys(sources) {
      PutEachSkips(attrs, sources, key);
    }
  }

  /** The chain of writes of onStart is internalSet of each pair of the table in turn. */
  lemma StartWritesFollowTable(attrs: Attrs, job: Job, name: Option<string>)
    ensures StartWrites(attrs, job, name) == PutEach(attrs, StartSources(job, name)[1..])
  {
    var t := StartSources(job, name)[1..];
    var r := job.request;
    var a1 := PutText(attrs, CodeFunction, name);
    var a2 := PutText(a1, ServerAddress, r.host);
    var a3 := PutText(a2, UrlPath, r.target);
    var a4 := PutText(a3, HttpUrl, r.host);
    var a5 := PutText(a4, ClientAddress, r.clientIp);
    var a6 := PutText(a5, HttpMethod, r.verb);
    var a7 := PutText(a6, HttpUserAgent, r.userAgent);
    var a8 := PutText(a7, HttpScheme, r.protocol);
    var a9 := PutText(a8, NetPeerIp, r.remoteAddress);
    var a10 := PutText(a9, RpcService, r.serviceName);
    PutEachStep(attrs, t, 0);
    PutEachStep(a1, t, 1);
    PutEachStep(a2, t, 2);
    PutEachStep(a3, t, 3);
    PutEachStep(a4, t, 4);
    PutEachStep(a5, t, 5);
    PutEachStep(a6, t, 6);
    PutEachStep(a7, t, 7);
    PutEachStep(a8, t, 8);
    PutEachStep(a9, t, 9);
    PutEachStep(a10, t, 10);
    assert t[11..] == [];
  }

  lemma PutEachStep(attrs: Attrs, sources: seq<(string, Option<string>)>, k: nat)
    requires k < |sources|
    ensures PutEach(attrs, sources[k..]) == PutEach(PutText(attrs, sources[k].0, sources[k].1), sources[k + 1..])
  {
    assert sources[k..][1..] == sources[k + 1..];
  }

  /** The tail of a list of distinct keys is distinct and leaves out the head. */
  lemma DistinctTail(sources: seq<(string, Option<string>)>)
    requires |sources| > 0 && Distinct(Keys(sources))
    ensures Keys(sources[1..]) == Keys(sources)[1..]
    ensures Distinct(Keys(sources[1..])) && sources[0].0 !in Keys(sources[1..])
  {
    var k := Keys(sources);
    assert Keys(sources[1..]) == k[1..];
    forall j | 0 <= j < |k| - 1 ensures k[1..][j] != sources[0].0 {
      assert k[0] == sources[0].0;
    }
  }

  /** The host is written under both the server address and the URL, and the method name under both the code function and the RPC method. */
  lemma AddressAndMethodUnderTwoKeys(attrs: Attrs, job: Job, name: string)
    requires GetMethodName(job) == Ok(Some(name))
    ensures var o := ServerStart(attrs, job);
      CodeFunction in o.attrs && RpcMethod in o.attrs && o.attrs[CodeFunction] == o.attrs[RpcMethod] == StrValue(name)
      && (job.request.host.Some? ==>
            ServerAddress in o.attrs && HttpUrl in o.attrs
            && o.attrs[ServerAddress] == o.attrs[HttpUrl] == StrValue(job.request.host.value))
  {
    var a := PutText(attrs, CodeNamespace, Some(job.className));
    var o := StartWrites(a, job, Some(name));
    assert ServerStart(attrs, job) == Outcome(o, None);
    var sources := StartSources(job, Some(name));
    StartKeysDistinct(job, Some(name));
    DistinctTail(sources);
    StartWritesFollowTable(a, job, Some(name));
    PutEachHolds(a, sources[1..], 0);
    PutEachHolds(a, sources[1..], 10);
    PutEachHolds(a, sources[1..], 1);
    PutEachHolds(a, sources[1..], 3);
  }

  /** When the method name throws, onStart has written the code namespace and nothing else. */
  lemma ServerStartFailsAfterNamespace(attrs: Attrs, job: Job)
    requires GetMethodName(job).Throws?
    ensures ServerStart(attrs, job) == Outcome(attrs[CodeNamespace := StrValue(job.className)], Some(NullPointer))
  {
  }

  /** onEnd records the reply status widened to a long, with its int value, and nothing else; a null response throws. */
  lemma ServerEndRecordsStatus(attrs: Attrs, response: Option<Job>)
    ensures var o := ServerEnd(attrs, response);
      (o.fault.Some? <==> response.None?)
      && (response.Some? && response.value.reply.statusCode.Some? ==>
            o.attrs == attrs[HttpStatusCode := LongValue(response.value.reply.statusCode.value)]
            && IsInt32(response.value.reply.statusCode.value))
      && (response.Some? && response.value.reply.statusCode.None? ==> o.attrs == attrs)
  {
  }

  /** After a sequence of puts to distinct keys, each key holds its own pair's value. */
  lemma {:induction false} PutEachHolds(attrs: Attrs, sources: seq<(string, Option<string>)>, i: nat)
    requires i < |sources| && Distinct(Keys(sources))
    ensures Holds(attrs, PutEach(attrs, sources), sources[i])
    decreases |sources|
  {
    var next := PutText(attrs, sources[0].0, sources[0].1);
    var rest := sources[1..];
    DistinctTail(sources);
    if i == 0 {
      PutEachSkips(next, rest, sources[0].0);
    } else {
      PutEachHolds(next, rest, i - 1);
      assert rest[i - 1] == sources[i];
      assert sources[i].0 != sources[0].0 by {
        assert Keys(sources)[i] == sources[i].0 && Keys(sources)[0] == sources[0].0;
      }
    }
  }

  /** A key none of the pairs names keeps its value. */
  lemma {:induction false} PutEachSkips(attrs: Attrs, sources: seq<(string, Option<string>)>, key: string)
    requires key !in Keys(sources)
    ensures (key in PutEach(attrs, sources) <==> key in attrs)
    ensures key in attrs ==> PutEach(attrs, sources)[key] == attrs[key]
    decreases |sources|
  {
    if sources != [] {
      assert Keys(sources[1..]) == Keys(sources)[1..];
      assert Keys(sources)[0] == sources[0].0;
      PutEachSkips(PutText(attrs, sources[0].0, sources[0].1), sources[1..], key);
    }
  }
}
