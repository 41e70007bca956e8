/** Cancellable delays and the standard abort error (packages/core/src/llm/utils/delay.ts). */
module Delays {
  import opened Wrappers
  import opened Errors

  /** `isAbortError`: an Error instance whose name is `'AbortError'`. */
  predicate IsAbortError(t: Thrown) {
    IsErrorInstance(t) && NameOf(t) == Some("AbortError")
  }

  /** `createAbortError()` */
  function CreateAbortError(): (e: Thrown)
    ensures IsAbortError(e)
    ensures MessageOf(e) == "The operation was aborted" && NameOf(e) == Some("AbortError")
  {
    ErrorValue("AbortError", "The operation was aborted", NoFields)
  }

  /** Non-Error values are never abort errors, and neither is an Error with another name. */
  lemma AbortErrorNeedsName(t: Thrown)
    ensures !IsErrorInstance(t) ==> !IsAbortError(t)
    ensures IsErrorInstance(t) && NameOf(t) != Some("AbortError") ==> !IsAbortError(t)
    ensures IsAbortError(t) <==> (t.ErrorValue? && t.name == "AbortError") || (t.LLMError? && t.err.name == "AbortError")
  {
  }

  /** No error of the unified hierarchy is an abort error: each class fixes another name. */
  lemma UnifiedErrorsAreNotAbortErrors(e: UnifiedError)
    requires WellFormed(e)
    ensures !IsAbortError(LLMError(e))
  {
  }

  /** The signal passed to `delay`, as far as the delay observes it. */
  datatype SignalState = NoSignal | AlreadyAborted | AbortsWhileWaiting | StaysUnaborted

  /** How a delay ends: resolved or rejected, and the timer it set, if any. */
  datatype DelayRun = DelayRun(outcome: Outcome<Thrown>, timerMs: Option<real>)

  /** `delay(ms, signal)`: an already-aborted signal rejects at once and sets no timer; otherwise a timer
      of `ms` is set, and an abort while waiting clears it and rejects. */
  function Delay(ms: real, signal: SignalState): (r: DelayRun)
    ensures signal.AlreadyAborted? ==> r == DelayRun(Fail(CreateAbortError()), None)
    ensures !signal.AlreadyAborted? ==> r.timerMs == Some(ms)
    ensures r.outcome.Pass? <==> signal.NoSignal? || signal.StaysUnaborted?
    ensures r.outcome.Fail? ==> IsAbortError(r.outcome.error)
  {
    if signal.AlreadyAborted? then DelayRun(Fail(CreateAbortError()), None)
    else if signal.AbortsWhileWaiting? then DelayRun(Fail(CreateAbortError()), Some(ms))
    else DelayRun(Pass, Some(ms))
  }
}
