/**
 * The tracing side the Coral hooks drive: the thread's current context, and
 * an instrumenter that decides whether a job gets a span, starts one under a
 * parent context and ends it. Span ids and the instrumenter's decision are
 * the model's stand-ins for what the tracing SDK does; the started and ended
 * contexts are kept as ghost logs.
 */
module CoralContext {
  import opened CoralJob

  /** A context: the root, or one carrying a span started under a parent context. */
  datatype Context = Root | SpanContext(parent: Context, spanId: nat)

  /** The trace a context's span belongs to: named by the span that began it; the root carries the invalid trace. */
  datatype TraceId = InvalidTrace | Trace(firstSpanId: nat)

  function TraceOf(c: Context): TraceId {
    match c
    case Root => InvalidTrace
    case SpanContext(parent, id) => if parent == Root then Trace(id) else TraceOf(parent)
  }

  /** How many spans a context is nested in. */
  function Depth(c: Context): nat {
    match c
    case Root => 0
    case SpanContext(parent, _) => Depth(parent) + 1
  }

  /** What makeCurrent returns: closing it makes the context that was current before current again. */
  datatype Scope = Scope(restore: Context)

  /** Everything the hooks change on the tracing side. */
  datatype SinkState = SinkState(current: Context, nextSpanId: nat, started: seq<Context>, ended: seq<Context>)

  /** Starting a span: a new context under `parent`, which becomes the newest started one. */
  function Started(s: SinkState, parent: Context): SinkState {
    s.(nextSpanId := s.nextSpanId + 1, started := s.started + [SpanContext(parent, s.nextSpanId)])
  }

  class Instrumenter {
    /** Java8BytecodeBridge.currentContext() of the hooks' thread. */
    var current: Context
    var nextSpanId: nat
    /** shouldStart(parentContext, job): the instrumenter's own decision. */
    const shouldStart: (Context, Job) -> bool
    ghost var started: seq<Context>
    ghost var ended: seq<Context>

    ghost function State(): SinkState
      reads this
    {
      SinkState(current, nextSpanId, started, ended)
    }

    constructor(shouldStart: (Context, Job) -> bool)
      ensures State() == SinkState(Root, 0, [], []) && this.shouldStart == shouldStart
    {
      current := Root;
      nextSpanId := 0;
      this.shouldStart := shouldStart;
      started := [];
      ended := [];
    }

    /** start(parentContext, job). */
    method Start(parent: Context, job: Job) returns (c: Context)
      modifies this
      ensures c == SpanContext(parent, old(nextSpanId))
      ensures State() == Started(old(State()), parent)
    {
      c := SpanContext(parent, nextSpanId);
      nextSpanId := nextSpanId + 1;
      started := started + [c];
    }

    /** context.makeCurrent(). */
    method MakeCurrent(c: Context) returns (scope: Scope)
      modifies this
      ensures scope == Scope(old(current))
      ensures State() == old(State()).(current := c)
    {
      scope := Scope(current);
      current := c;
    }

    /** scope.close(). */
    method Close(scope: Scope)
      modifies this
      ensures State() == old(State()).(current := scope.restore)
    {
      current := scope.restore;
    }

    /** end(context, job, job, job.getFailure()). */
    method End(c: Context, job: Job)
      modifies this
      ensures State() == old(State()).(ended := old(ended) + [c])
    {
      ended := ended + [c];
    }
  }
}
