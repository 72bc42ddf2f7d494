/**
 * CoralSpanStatusExtractor of the Coral client: a reply whose HTTP status is
 * not a 1xx-4xx code marks the span as an error; every other call is left to
 * the default span-status extractor.
 */
module CoralSpanStatus {
  import opened CoralJob
  import Outcomes

  datatype StatusCode = Unset | Ok | Error

  /** isError: a server error, or a value no HTTP status code has. */
  predicate IsError(code: int) {
    code >= 500 || code < 100
  }

  /** An independent reading of isError: the code's hundreds digit is not that of an informational, success, redirection or client-error class. */
  lemma IsErrorByStatusClass(code: int)
    ensures IsError(code) <==> code / 100 !in {1, 2, 3, 4}
  {
    if 100 <= code < 500 {
      assert 1 <= code / 100 <= 4;
    } else if code < 100 {
      assert code / 100 <= 0;
    } else {
      assert code / 100 >= 5;
    }
  }

  /** The edges of the error range: 99 and 500 are errors, 100 and 499 are not. */
  lemma IsErrorBoundaries()
    ensures IsError(99) && IsError(500) && !IsError(100) && !IsError(499)
  {
  }

  /** Whether extract sets the error status itself: a non-null response whose reply has an error status. */
  predicate SetsError(response: Outcomes.Option<Job>) {
    response.Some? && response.value.reply.statusCode.Some? && IsError(response.value.reply.statusCode.value)
  }

  /** The span-status builder of one span: its status, and how often the default extractor was handed the span. */
  class SpanStatusBuilder {
    var status: StatusCode
    var delegations: nat

    constructor()
      ensures status == Unset && delegations == 0
    {
      status := Unset;
      delegations := 0;
    }

    method SetStatus(code: StatusCode)
      modifies this
      ensures status == code && delegations == old(delegations)
    {
      status := code;
    }
  }

  /**
   * extract: ERROR for an error reply, without consulting the default
   * extractor; otherwise the span goes to the default extractor, whose own
   * decision is outside this model and is counted, not applied.
   */
  method Extract(builder: SpanStatusBuilder, response: Outcomes.Option<Job>)
    modifies builder
    ensures SetsError(response) ==> builder.status == Error && builder.delegations == old(builder.delegations)
    ensures !SetsError(response) ==> builder.status == old(builder.status) && builder.delegations == old(builder.delegations) + 1
  {
    if response.Some? {
      var statusCode := response.value.reply.statusCode;
      if statusCode.Some? {
        if IsError(statusCode.value) {
          builder.SetStatus(Error);
          return;
        }
      }
    }
    builder.delegations := builder.delegations + 1;
  }

  /** Only a reply with an error status decides the status here: a null response, a missing status and every 1xx-4xx status are delegated. */
  lemma DelegatedCalls(response: Outcomes.Option<Job>)
    ensures !SetsError(response) <==>
      response.None? || response.value.reply.statusCode.None? || 100 <= response.value.reply.statusCode.value < 500
  {
  }
}
