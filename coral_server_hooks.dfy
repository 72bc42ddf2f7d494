/**
 * CoralServerInstrumentation: the exit advice of HttpHandler.before starts
 * the server span and makes it current; the enter advice of
 * HttpHandler.after ends whatever context is current then. No flag passes
 * from one to the other, and the scope opened by the first is never closed.
 */
module CoralServerHooks {
  import opened CoralJob
  import opened CoralContext

  /** CoralReqBeforeAdvice.methodExit, given the instrumenter's decision for the current context. */
  function BeforeExitSpec(s: SinkState, job: Job, admitted: bool): SinkState {
    if job.request.operationName.None? || !admitted then s
    else Started(s, s.current).(current := SpanContext(s.current, s.nextSpanId))
  }

  /** CoralReqAfterAdvice.methodEnter: the current context is made current again and ended. */
  function AfterEnterSpec(s: SinkState, job: Job): SinkState {
    if job.request.operationName.None? then s
    else s.(ended := s.ended + [s.current])
  }

  method BeforeExit(sink: Instrumenter, job: Job)
    modifies sink
    ensures sink.State() == BeforeExitSpec(old(sink.State()), job, sink.shouldStart(old(sink.current), job))
  {
    if job.request.operationName.None? {
      return;
    }
    var parent := sink.current;
    if !sink.shouldStart(parent, job) {
      return;
    }
    var context := sink.Start(parent, job);
    var scope := sink.MakeCurrent(context);
  }

  method AfterEnter(sink: Instrumenter, job: Job)
    modifies sink
    ensures sink.State() == AfterEnterSpec(old(sink.State()), job)
  {
    if job.request.operationName.None? {
      return;
    }
    var parent := sink.current;
    var scope := sink.MakeCurrent(parent);
    sink.End(parent, job);
  }

  /**
   * One request through both hooks: without an operation name nothing
   * happens; with one, exactly one context is ended, and a span is started
   * exactly when the instrumenter admits the job. An admitted span is the one
   * ended, is a child of the context current before, and stays current.
   */
  lemma ServerRound(s: SinkState, job: Job, admitted: bool)
    ensures var r := AfterEnterSpec(BeforeExitSpec(s, job, admitted), job);
      (job.request.operationName.None? ==> r == s)
      && (job.request.operationName.Some? ==>
            |r.ended| == |s.ended| + 1 && r.ended[..|s.ended|] == s.ended
            && (|r.started| == |s.started| + 1 <==> admitted)
            && (admitted ==> r.ended[|s.ended|] == r.started[|s.started|] == r.current
                             && r.current.SpanContext? && r.current.parent == s.current)
            && (!admitted ==> r.started == s.started && r.ended[|s.ended|] == s.current && r.current == s.current))
  {
  }

  /** The after hook carries no record of a start: a suppressed request still ends the context around it, so ends outnumber starts by one more. */
  lemma SuppressedRequestEndsOuterContext(s: SinkState, job: Job)
    requires job.request.operationName.Some?
    ensures var r := AfterEnterSpec(BeforeExitSpec(s, job, false), job);
      |r.ended| - |r.started| == |s.ended| - |s.started| + 1 && r.ended == s.ended + [s.current]
  {
  }

  /** Calling the after hook twice ends the same context twice. */
  lemma AfterHookTwiceEndsTwice(s: SinkState, job: Job)
    requires job.request.operationName.Some?
    ensures AfterEnterSpec(AfterEnterSpec(s, job), job).ended == s.ended + [s.current, s.current]
  {
  }

  /** A run of requests, each with the instrumenter's decision for it. */
  function ServerRounds(s: SinkState, jobs: seq<(Job, bool)>): SinkState
    decreases |jobs|
  {
    if jobs == [] then s
    else ServerRounds(AfterEnterSpec(BeforeExitSpec(s, jobs[0].0, jobs[0].1), jobs[0].0), jobs[1..])
  }

  /** The number of requests of a run whose span is started. */
  function Admitted(jobs: seq<(Job, bool)>): nat {
    if jobs == [] then 0
    else (if jobs[0].0.request.operationName.Some? && jobs[0].1 then 1 else 0) + Admitted(jobs[1..])
  }

  /**
   * Since the span's scope is never closed, every admitted request leaves
   * its span current, and the next request on the thread starts its span
   * under it: the current context sinks one level deeper per admitted request.
   */
  lemma {:induction false} AdmittedSpansNest(s: SinkState, jobs: seq<(Job, bool)>)
    ensures Depth(ServerRounds(s, jobs).current) == Depth(s.current) + Admitted(jobs)
    ensures |ServerRounds(s, jobs).started| == |s.started| + Admitted(jobs)
    decreases |jobs|
  {
    if jobs != [] {
      AdmittedSpansNest(AfterEnterSpec(BeforeExitSpec(s, jobs[0].0, jobs[0].1), jobs[0].0), jobs[1..]);
    }
  }
}
