/**
 * CoralClientRpcInstrumentation: the enter and exit advice of
 * ApacheHttpHandler.before. Enter starts the client span and keeps the
 * context and its scope in the invocation's local slots; exit closes that
 * scope, ends that context and adds the span's trace id to the job metrics.
 */
module CoralClientHooks {
  import opened Outcomes
  import opened CoralJob
  import opened CoralContext

  const TraceIdProperty := "AwsXRayTraceId"

  /** The advice's two local slots, which start null in every invocation. */
  datatype Locals = Locals(context: Option<Context>, scope: Option<Scope>)

  /** Enter assigns both slots together, so a scope never comes without its context. */
  predicate Paired(l: Locals) {
    l.scope.Some? ==> l.context.Some?
  }

  class AdviceLocals {
    var context: Option<Context>
    var scope: Option<Scope>

    function Slots(): Locals
      reads this
    {
      Locals(context, scope)
    }

    constructor()
      ensures Slots() == Locals(None, None)
    {
      context := None;
      scope := None;
    }
  }

  /** job.getMetrics(): the properties added to it, in order. */
  class JobMetrics {
    var properties: seq<(string, TraceId)>

    constructor()
      ensures properties == []
    {
      properties := [];
    }

    method AddProperty(name: string, value: TraceId)
      modifies this
      ensures properties == old(properties) + [(name, value)]
    {
      properties := properties + [(name, value)];
    }
  }

  /** methodEnter, given the instrumenter's decision for the current context. */
  function EnterSpec(s: SinkState, l: Locals, job: Job, admitted: bool): (r: (SinkState, Locals))
    ensures Paired(l) ==> Paired(r.1)
  {
    if job.request.operationName.None? || !admitted then (s, l)
    else
      var c := SpanContext(s.current, s.nextSpanId);
      (Started(s, s.current).(current := c), Locals(Some(c), Some(Scope(s.current))))
  }

  /** methodExit: the new sink state and the trace id added to the job metrics, if any. */
  function ExitSpec(s: SinkState, l: Locals, job: Job): (SinkState, Option<TraceId>)
    requires Paired(l)
  {
    if job.request.operationName.None? || l.scope.None? then (s, None)
    else (s.(current := l.scope.value.restore, ended := s.ended + [l.context.value]), Some(TraceOf(l.context.value)))
  }

  method MethodEnter(sink: Instrumenter, locals: AdviceLocals, job: Job)
    modifies sink, locals
    ensures (sink.State(), locals.Slots()) == EnterSpec(old(sink.State()), old(locals.Slots()), job, sink.shouldStart(old(sink.current), job))
  {
    if job.request.operationName.None? {
      return;
    }
    var parent := sink.current;
    if !sink.shouldStart(parent, job) {
      return;
    }
    var context := sink.Start(parent, job);
    locals.context := Some(context);
    var scope := sink.MakeCurrent(context);
    locals.scope := Some(scope);
  }

  method MethodExit(sink: Instrumenter, locals: AdviceLocals, metrics: JobMetrics, job: Job)
    requires Paired(locals.Slots())
    modifies sink, metrics
    ensures var (s, traceId) := ExitSpec(old(sink.State()), locals.Slots(), job);
      sink.State() == s
      && metrics.properties == old(metrics.properties) + (if traceId.Some? then [(TraceIdProperty, traceId.value)] else [])
  {
    if job.request.operationName.None? {
      return;
    }
    if locals.scope.None? {
      return;
    }
    var context := locals.context.value;
    sink.Close(locals.scope.value);
    sink.End(context, job);
    metrics.AddProperty(TraceIdProperty, TraceOf(context));
  }

  /** One invocation: enter from null slots, then exit with the same job. */
  function ClientRound(s: SinkState, job: Job, admitted: bool): (SinkState, Option<TraceId>) {
    var (s1, l1) := EnterSpec(s, Locals(None, None), job, admitted);
    ExitSpec(s1, l1, job)
  }

  /**
   * An invocation ends exactly the span it started, restores the context
   * that was current before, and records the trace of the context it ran
   * under (the new span's own trace at the root); one that starts nothing
   * changes nothing and records nothing.
   */
  lemma ClientRoundEndsItsOwnSpan(s: SinkState, job: Job, admitted: bool)
    ensures var (r, traceId) := ClientRound(s, job, admitted);
      r.current == s.current
      && (job.request.operationName.Some? && admitted ==>
            var c := SpanContext(s.current, s.nextSpanId);
            r.started == s.started + [c] && r.ended == s.ended + [c]
            && traceId == Some(if s.current == Root then Trace(s.nextSpanId) else TraceOf(s.current)))
      && (job.request.operationName.None? || !admitted ==> r == s && traceId == None)
  {
  }

  /** An exit whose enter started nothing ends nothing: there is no end without a start. */
  lemma ExitWithoutStartEndsNothing(s: SinkState, job: Job)
    ensures ExitSpec(s, Locals(None, None), job) == (s, None)
  {
  }

  /** If the operation name disappears between enter and exit, the started span is never ended and stays current. */
  lemma LostOperationNameLeavesSpanOpen(s: SinkState, enterJob: Job, exitJob: Job)
    requires enterJob.request.operationName.Some? && exitJob.request.operationName.None?
    ensures var (s1, l1) := EnterSpec(s, Locals(None, None), enterJob, true);
      var (r, traceId) := ExitSpec(s1, l1, exitJob);
      |r.started| == |s.started| + 1 && r.ended == s.ended && r.current == r.started[|s.started|] && traceId == None
  {
  }

  /** A run of invocations on one thread, each with the instrumenter's decision for it. */
  function ClientRounds(s: SinkState, jobs: seq<(Job, bool)>): SinkState
    decreases |jobs|
  {
    if jobs == [] then s else ClientRounds(ClientRound(s, jobs[0].0, jobs[0].1).0, jobs[1..])
  }

  /** However many invocations run, the current context comes back, and the spans ended are exactly the spans started, in order. */
  lemma {:induction false} ClientRoundsBalance(s: SinkState, jobs: seq<(Job, bool)>)
    ensures var r := ClientRounds(s, jobs);
      r.current == s.current
      && |r.started| >= |s.started| && |r.ended| >= |s.ended|
      && r.started[..|s.started|] == s.started && r.ended[..|s.ended|] == s.ended
      && r.started[|s.started|..] == r.ended[|s.ended|..]
    decreases |jobs|
  {
    if jobs != [] {
      var s1 := ClientRound(s, jobs[0].0, jobs[0].1).0;
      ClientRoundEndsItsOwnSpan(s, jobs[0].0, jobs[0].1);
      ClientRoundsBalance(s1, jobs[1..]);
      var r := ClientRounds(s, jobs);
      assert r == ClientRounds(s1, jobs[1..]);
      var added := s1.started[|s.started|..];
      assert added == s1.ended[|s.ended|..];
      assert r.started[|s.started|..] == added + r.started[|s1.started|..];
      assert r.ended[|s.ended|..] == added + r.ended[|s1.ended|..];
    }
  }
}
