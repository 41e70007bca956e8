/** Exponential backoff with jitter and the bounded attempt loop (packages/core/src/llm/utils/retry.ts). */
module Retry {
  import opened Wrappers
  import opened Errors
  import opened Delays

  datatype RetryOptions = RetryOptions(maxAttempts: int, initialDelayMs: int, maxDelayMs: int,
                                       shouldRetryOnError: Option<Thrown -> bool>)

  /** The options a caller passes; absent fields take the defaults. */
  datatype PartialRetryOptions = PartialRetryOptions(maxAttempts: Option<int>, initialDelayMs: Option<int>,
                                                     maxDelayMs: Option<int>, shouldRetryOnError: Option<Thrown -> bool>)

  /** `DEFAULT_RETRY_OPTIONS` */
  const DefaultRetryOptions: RetryOptions := RetryOptions(3, 5000, 30000, None)

  /** `{ ...DEFAULT_RETRY_OPTIONS, ...options }` */
  function MergeOptions(p: PartialRetryOptions): (o: RetryOptions)
    ensures p.maxAttempts.None? ==> o.maxAttempts == 3
    ensures p.initialDelayMs.None? ==> o.initialDelayMs == 5000
    ensures p.maxDelayMs.None? ==> o.maxDelayMs == 30000
    ensures o.shouldRetryOnError == p.shouldRetryOnError
  {
    RetryOptions(p.maxAttempts.GetOr(DefaultRetryOptions.maxAttempts),
                 p.initialDelayMs.GetOr(DefaultRetryOptions.initialDelayMs),
                 p.maxDelayMs.GetOr(DefaultRetryOptions.maxDelayMs),
                 p.shouldRetryOnError)
  }

  // ---- backoff ----

  function Pow2(n: nat): (r: nat)
    ensures r >= 1
  {
    if n == 0 then 1 else 2 * Pow2(n - 1)
  }

  /** `min(initialDelayMs * 2^attempt, maxDelayMs)` */
  function CappedDelay(attempt: nat, initialDelayMs: int, maxDelayMs: int): int {
    var exponential := initialDelayMs * Pow2(attempt);
    if exponential < maxDelayMs then exponential else maxDelayMs
  }

  /** `Math.max(0, c + c * 0.3 * u)`: the capped delay `c` with its jitter. */
  function Jittered(c: real, u: real): real {
    var jitter := c * 0.3 * u;
    if 0.0 < c + jitter then c + jitter else 0.0
  }

  /** `calculateBackoffDelay(attempt, initialDelayMs, maxDelayMs)` with the random draw `u` in [-1, 1)
      standing for `Math.random() * 2 - 1`. */
  function CalculateBackoffDelay(attempt: nat, initialDelayMs: int, maxDelayMs: int, u: real): real {
    Jittered(CappedDelay(attempt, initialDelayMs, maxDelayMs) as real, u)
  }

  lemma JitteredBounds(c: real, u: real)
    requires -1.0 <= u < 1.0
    ensures 0.0 <= Jittered(c, u)
    ensures 0.0 <= c ==> 0.7 * c <= Jittered(c, u) <= 1.3 * c
  {
    var a := c * 0.3;
    var j := a * u;
    assert Jittered(c, u) == if 0.0 < c + j then c + j else 0.0;
    if 0.0 <= c {
      MulNonNeg(a, 1.0 - u);
      assert a * (1.0 - u) == a - j;
      MulNonNeg(a, 1.0 + u);
      assert a * (1.0 + u) == a + j;
    }
  }

  lemma CappedAtMost(attempt: nat, initialDelayMs: int, maxDelayMs: int)
    ensures CappedDelay(attempt, initialDelayMs, maxDelayMs) <= maxDelayMs
  {
  }

  /** The backoff is never negative, lies within 30% of the capped delay, and never exceeds 130% of
      the maximum delay. */
  lemma BackoffBounds(attempt: nat, initialDelayMs: int, maxDelayMs: int, u: real)
    requires -1.0 <= u < 1.0
    ensures var r := CalculateBackoffDelay(attempt, initialDelayMs, maxDelayMs, u);
            var c := CappedDelay(attempt, initialDelayMs, maxDelayMs) as real;
            0.0 <= r
            && (0 <= maxDelayMs ==> r <= 1.3 * maxDelayMs as real)
            && (0.0 <= c ==> 0.7 * c <= r <= 1.3 * c)
  {
    var c := CappedDelay(attempt, initialDelayMs, maxDelayMs);
    CappedAtMost(attempt, initialDelayMs, maxDelayMs);
    JitteredBounds(c as real, u);
  }

  lemma MulNonNeg(x: real, y: real)
    requires 0.0 <= x && 0.0 <= y
    ensures 0.0 <= x * y
  {
  }

  lemma Pow2Monotone(a: nat, b: nat)
    requires a <= b
    ensures Pow2(a) <= Pow2(b)
    decreases b
  {
    if a < b {
      Pow2Monotone(a, b - 1);
    }
  }

  /** Before jitter, the delay never shrinks as attempts go on (for a non-negative initial delay). */
  lemma {:induction false} CappedDelayMonotone(a: nat, b: nat, initialDelayMs: int, maxDelayMs: int)
    requires a <= b && 0 <= initialDelayMs
    ensures CappedDelay(a, initialDelayMs, maxDelayMs) <= CappedDelay(b, initialDelayMs, maxDelayMs)
  {
    Pow2Monotone(a, b);
    assert initialDelayMs * Pow2(a) <= initialDelayMs * Pow2(b) by {
      MulMonotone(initialDelayMs, Pow2(a), Pow2(b));
    }
  }

  lemma MulMonotone(x: int, a: int, b: int)
    requires 0 <= x && a <= b
    ensures x * a <= x * b
  {
  }

  // ---- the attempt loop ----

  /** What one call of `fn` does. */
  datatype Attempt<+T> = Returned(value: T) | Threw(error: Thrown)

  /** When the caller's signal is seen aborted: never, at the check before an attempt, or during the
      wait that follows an attempt. */
  datatype AbortSchedule = NeverAborted | AbortedBeforeAttempt(attempt: nat) | AbortedDuringDelay(afterAttempt: nat)

  /** The whole run: the outcome, how many times `fn` was called, and the waits between calls. */
  datatype RetryRun<+T> = RetryRun(result: Result<T, Thrown>, calls: nat, waits: seq<real>)

  /** `error instanceof Error ? error : new Error(String(error))` */
  function AsError(e: Thrown): Thrown {
    if IsErrorInstance(e) then e else PlainError(MessageOf(e))
  }

  /** `opts.shouldRetryOnError ?? defaultShouldRetry`, applied. */
  function ShouldRetry(o: RetryOptions, e: Thrown): bool {
    match o.shouldRetryOnError
    case Some(f) => f(e)
    case None => DefaultShouldRetry(e)
  }

  /** `defaultShouldRetry` */
  function DefaultShouldRetry(e: Thrown): bool {
    IsRetryableError(e)
  }

  /** The error thrown by the check before an attempt. */
  function PreAttemptAbortError(lastError: Option<Thrown>): Thrown {
    if lastError.Some? && IsAbortError(lastError.value) then lastError.value else PlainError("The operation was aborted")
  }

  /** The wait after a failed attempt: a rate-limit error's truthy `retryAfter`, else the backoff. */
  function WaitFor(e: Thrown, attempt: nat, o: RetryOptions, u: real): real
  {
    if e.LLMError? && e.err.kind.RateLimit? && e.err.kind.retryAfter.Some? && e.err.kind.retryAfter.value != 0
    then e.err.kind.retryAfter.value as real
    else CalculateBackoffDelay(attempt, o.initialDelayMs, o.maxDelayMs, u)
  }

  /** How the signal looks to the wait after `attempt`. */
  function SignalForDelay(signal: AbortSchedule, attempt: nat): SignalState {
    if signal.AbortedDuringDelay? && signal.afterAttempt == attempt then AbortsWhileWaiting else StaysUnaborted
  }

  /** What one pass of the loop body decides: the run stops here (with the calls and waits of this
      pass), or it waits and goes on with `last` as the last error. */
  datatype Step<+T> = Stop(result: Result<T, Thrown>, calls: nat, waits: seq<real>) | GoOn(wait: real, last: Thrown)

  /** One pass of the loop body of `retryWithBackoff`, for an attempt below `maxAttempts`. */
  function StepAt<T>(fn: nat -> Attempt<T>, o: RetryOptions, signal: AbortSchedule, jitter: nat -> real,
                     attempt: nat, lastError: Option<Thrown>): Step<T>
  {
    if signal.AbortedBeforeAttempt? && signal.attempt == attempt then
      Stop(Failure(PreAttemptAbortError(lastError)), 0, [])
    else
      match fn(attempt)
      case Returned(v) => Stop(Success(v), 1, [])
      case Threw(e) =>
        var last := AsError(e);
        if IsAbortError(e) then Stop(Failure(e), 1, [])
        else if attempt == o.maxAttempts - 1 || !ShouldRetry(o, last) then Stop(Failure(last), 1, [])
        else
          var w := WaitFor(last, attempt, o, jitter(attempt));
          var d := Delay(w, SignalForDelay(signal, attempt));
          if d.outcome.Fail? then Stop(Failure(d.outcome.error), 1, [w]) else GoOn(w, last)
  }

  /** The loop of `retryWithBackoff` from `attempt` on, with `lastError` as left by the earlier attempts. */
  function RunFrom<T>(fn: nat -> Attempt<T>, o: RetryOptions, signal: AbortSchedule, jitter: nat -> real,
                      attempt: nat, lastError: Option<Thrown>): RetryRun<T>
    decreases o.maxAttempts - attempt
  {
    if o.maxAttempts <= attempt then
      RetryRun(Failure(lastError.GetOr(PlainError("Retry failed"))), 0, [])
    else
      match StepAt(fn, o, signal, jitter, attempt, lastError)
      case Stop(result, calls, waits) => RetryRun(result, calls, waits)
      case GoOn(w, last) =>
        var rest := RunFrom(fn, o, signal, jitter, attempt + 1, Some(last));
        RetryRun(rest.result, rest.calls + 1, [w] + rest.waits)
  }

  /** One pass of the body of the `for` loop of `retryWithBackoff`: the check of the signal, the call,
      and, after a failure, the decision to throw or to wait. */
  method RunAttempt<T>(fn: nat -> Attempt<T>, opts: RetryOptions, signal: AbortSchedule, jitter: nat -> real,
                    attempt: nat, lastError: Option<Thrown>)
    returns (step: Step<T>)
    ensures step == StepAt(fn, opts, signal, jitter, attempt, lastError)
  {
    if signal.AbortedBeforeAttempt? && signal.attempt == attempt {
      return Stop(Failure(PreAttemptAbortError(lastError)), 0, []);
    }
    var outcome := fn(attempt);
    if outcome.Returned? {
      return Stop(Success(outcome.value), 1, []);
    }
    var error := outcome.error;
    var last := AsError(error);
    if IsAbortError(error) {
      return Stop(Failure(error), 1, []);
    }
    var isLastAttempt := attempt == opts.maxAttempts - 1;
    if isLastAttempt || !ShouldRetry(opts, last) {
      return Stop(Failure(last), 1, []);
    }
    var delayMs: real;
    if last.LLMError? && last.err.kind.RateLimit? && last.err.kind.retryAfter.Some? && last.err.kind.retryAfter.value != 0 {
      delayMs := last.err.kind.retryAfter.value as real;
    } else {
      delayMs := CalculateBackoffDelay(attempt, opts.initialDelayMs, opts.maxDelayMs, jitter(attempt));
    }
    var waited := Delay(delayMs, SignalForDelay(signal, attempt));
    if waited.outcome.Fail? {
      return Stop(Failure(waited.outcome.error), 1, [delayMs]);
    }
    return GoOn(delayMs, last);
  }

  /** The run `r` of the remaining attempts, after `waits` were waited between the earlier calls. */
  function After<T>(waits: seq<real>, r: RetryRun<T>): RetryRun<T> {
    RetryRun(r.result, |waits| + r.calls, waits + r.waits)
  }

  /** After a pass that goes on, the remaining run is the pass's wait followed by the run from the
      next attempt. */
  lemma AfterGoOn<T>(fn: nat -> Attempt<T>, o: RetryOptions, signal: AbortSchedule, jitter: nat -> real,
                     attempt: nat, lastError: Option<Thrown>, waits: seq<real>)
    requires attempt < o.maxAttempts && StepAt(fn, o, signal, jitter, attempt, lastError).GoOn?
    ensures var s := StepAt(fn, o, signal, jitter, attempt, lastError);
            After(waits, RunFrom(fn, o, signal, jitter, attempt, lastError))
            == After(waits + [s.wait], RunFrom(fn, o, signal, jitter, attempt + 1, Some(s.last)))
  {
    var s := StepAt(fn, o, signal, jitter, attempt, lastError);
    var rest := RunFrom(fn, o, signal, jitter, attempt + 1, Some(s.last));
    assert waits + ([s.wait] + rest.waits) == (waits + [s.wait]) + rest.waits;
  }

  /** `retryWithBackoff(fn, options)`: the run it performs is the one `RunFrom` describes from attempt 0. */
  method RetryWithBackoff<T>(fn: nat -> Attempt<T>, options: PartialRetryOptions, signal: AbortSchedule,
                             jitter: nat -> real)
    returns (result: Result<T, Thrown>, calls: nat, waits: seq<real>)
    ensures RetryRun(result, calls, waits) == RunFrom(fn, MergeOptions(options), signal, jitter, 0, None)
  {
    var opts := MergeOptions(options);
    ghost var run := RunFrom(fn, opts, signal, jitter, 0, None);
    var lastError: Option<Thrown> := None;
    calls, waits := 0, [];
    var attempt := 0;
    while attempt < opts.maxAttempts
      invariant calls == attempt == |waits|
      invariant run == After(waits, RunFrom(fn, opts, signal, jitter, attempt, lastError))
      decreases opts.maxAttempts - attempt
    {
      var step := RunAttempt(fn, opts, signal, jitter, attempt, lastError);
      if step.Stop? {
        result, calls, waits := step.result, calls + step.calls, waits + step.waits;
        return;
      }
      AfterGoOn(fn, opts, signal, jitter, attempt, lastError, waits);
      calls, waits := calls + 1, waits + [step.wait];
      lastError := Some(step.last);
      attempt := attempt + 1;
    }
    result := Failure(if lastError.Some? then lastError.value else PlainError("Retry failed"));
  }

  /** `withRetry(fn, options)(...args)`: the retry loop around the calls `fn(...args)`, whose `k`-th
      outcome is `fn(args)(k)`. */
  method WithRetry<A, T>(fn: A -> nat -> Attempt<T>, options: PartialRetryOptions, signal: AbortSchedule,
                         jitter: nat -> real, args: A)
    returns (result: Result<T, Thrown>, calls: nat, waits: seq<real>)
    ensures RetryRun(result, calls, waits) == RunFrom(fn(args), MergeOptions(options), signal, jitter, 0, None)
  {
    result, calls, waits := RetryWithBackoff(fn(args), options, signal, jitter);
  }

  // ---- properties of the run ----

  /** A pass that goes on to the next attempt had a call that threw a retryable, non-abort error
      before the last attempt, and waits as `WaitFor` says. */
  lemma StepGoOnFacts<T>(fn: nat -> Attempt<T>, o: RetryOptions, signal: AbortSchedule, jitter: nat -> real,
                         attempt: nat, lastError: Option<Thrown>)
    ensures var s := StepAt(fn, o, signal, jitter, attempt, lastError);
            s.GoOn? ==> fn(attempt).Threw? && !IsAbortError(fn(attempt).error) && attempt != o.maxAttempts - 1
                        && s.last == AsError(fn(attempt).error) && ShouldRetry(o, s.last)
                        && s.wait == WaitFor(s.last, attempt, o, jitter(attempt))
  {
  }

  /** What a single pass decides, case by case. */
  lemma StepFacts<T>(fn: nat -> Attempt<T>, o: RetryOptions, signal: AbortSchedule, jitter: nat -> real,
                     attempt: nat, lastError: Option<Thrown>)
    ensures var s := StepAt(fn, o, signal, jitter, attempt, lastError);
            && (s.GoOn? ==> fn(attempt).Threw? && !IsAbortError(fn(attempt).error) && attempt != o.maxAttempts - 1
                            && s.last == AsError(fn(attempt).error) && ShouldRetry(o, s.last) && !IsAbortError(s.last)
                            && s.wait == WaitFor(s.last, attempt, o, jitter(attempt)))
            && (s.Stop? ==> s.calls <= 1 && |s.waits| <= s.calls)
            && (s.Stop? && s.calls == 0 ==> s.result == Failure(PreAttemptAbortError(lastError)))
            && (s.Stop? && s.calls == 1 ==> !(signal.AbortedBeforeAttempt? && signal.attempt == attempt))
            && (s.Stop? && s.calls == 1 && fn(attempt).Returned? ==> s.result == Success(fn(attempt).value) && s.waits == [])
            && (s.Stop? && s.calls == 1 && fn(attempt).Threw? && IsAbortError(fn(attempt).error)
                ==> s.result == Failure(fn(attempt).error) && s.waits == [])
            && (s.Stop? && s.calls == 1 && fn(attempt).Threw? && !IsAbortError(fn(attempt).error)
                && (attempt == o.maxAttempts - 1 || !ShouldRetry(o, AsError(fn(attempt).error)))
                ==> s.result == Failure(AsError(fn(attempt).error)) && s.waits == [])
            && (s.Stop? && s.calls == 1 && fn(attempt).Threw? && !IsAbortError(fn(attempt).error)
                && attempt != o.maxAttempts - 1 && ShouldRetry(o, AsError(fn(attempt).error))
                ==> s.result == Failure(CreateAbortError()) && |s.waits| == 1
                    && signal == AbortedDuringDelay(attempt))
  {
  }

  /** `fn` is called at most `maxAttempts` times; a wait separates consecutive calls; a success is
      never followed by a wait. */
  lemma {:induction false} RetryCallBound<T>(fn: nat -> Attempt<T>, o: RetryOptions, signal: AbortSchedule,
                                             jitter: nat -> real, attempt: nat, lastError: Option<Thrown>)
    ensures var r := RunFrom(fn, o, signal, jitter, attempt, lastError);
            r.calls <= (if attempt < o.maxAttempts then o.maxAttempts - attempt else 0)
            && (r.calls == |r.waits| || r.calls == |r.waits| + 1)
            && (r.result.Success? ==> r.calls == |r.waits| + 1)
    decreases o.maxAttempts - attempt
  {
    if attempt < o.maxAttempts {
      var s := StepAt(fn, o, signal, jitter, attempt, lastError);
      StepFacts(fn, o, signal, jitter, attempt, lastError);
      if s.GoOn? {
        RetryCallBound(fn, o, signal, jitter, attempt + 1, Some(s.last));
      }
    }
  }

  /** Every call but the last threw an error that was not an abort error, came before the last
      attempt, and was accepted by `shouldRetry`. */
  lemma {:induction false} RetryEarlierCallWasRetried<T>(fn: nat -> Attempt<T>, o: RetryOptions, signal: AbortSchedule,
                                                        jitter: nat -> real, attempt: nat, lastError: Option<Thrown>, k: nat)
    requires attempt <= k < attempt + RunFrom(fn, o, signal, jitter, attempt, lastError).calls - 1
    ensures fn(k).Threw? && !IsAbortError(fn(k).error) && k < o.maxAttempts - 1
            && ShouldRetry(o, AsError(fn(k).error))
    decreases k - attempt
  {
    assert attempt < o.maxAttempts;
    var s := StepAt(fn, o, signal, jitter, attempt, lastError);
    StepGoOnFacts(fn, o, signal, jitter, attempt, lastError);
    assert s.GoOn?;
    if k > attempt {
      RetryEarlierCallWasRetried(fn, o, signal, jitter, attempt + 1, Some(s.last), k);
    }
  }

  /** The wait after each call but the last follows the rate-limit-or-backoff rule of `WaitFor`
      for that call's error. */
  lemma {:induction false} RetryEarlierWait<T>(fn: nat -> Attempt<T>, o: RetryOptions, signal: AbortSchedule,
                                              jitter: nat -> real, attempt: nat, lastError: Option<Thrown>, k: nat)
    requires attempt <= k < attempt + RunFrom(fn, o, signal, jitter, attempt, lastError).calls - 1
    ensures var r := RunFrom(fn, o, signal, jitter, attempt, lastError);
            fn(k).Threw? && k - attempt < |r.waits|
            && r.waits[k - attempt] == WaitFor(AsError(fn(k).error), k, o, jitter(k))
    decreases k - attempt
  {
    var r := RunFrom(fn, o, signal, jitter, attempt, lastError);
    assert attempt < o.maxAttempts;
    var s := StepAt(fn, o, signal, jitter, attempt, lastError);
    StepGoOnFacts(fn, o, signal, jitter, attempt, lastError);
    assert s.GoOn?;
    var rest := RunFrom(fn, o, signal, jitter, attempt + 1, Some(s.last));
    assert r == RetryRun(rest.result, rest.calls + 1, [s.wait] + rest.waits);
    if k > attempt {
      RetryEarlierWait(fn, o, signal, jitter, attempt + 1, Some(s.last), k);
      assert r.waits[k - attempt] == rest.waits[k - (attempt + 1)];
    }
  }

  /** The last call decides the outcome: its value, an abort error it threw (rethrown as is), its
      error when it may not be retried, or, when it would have been retried, the cancellation of the
      wait or of the next attempt. */
  lemma {:induction false} RetryLastCallDecides<T>(fn: nat -> Attempt<T>, o: RetryOptions, signal: AbortSchedule,
                                                  jitter: nat -> real, attempt: nat, lastError: Option<Thrown>)
    ensures var r := RunFrom(fn, o, signal, jitter, attempt, lastError);
            var k := attempt + r.calls - 1;
            r.calls > 0 ==>
              (fn(k).Returned? ==> r.result == Success(fn(k).value))
              && (fn(k).Threw? && IsAbortError(fn(k).error) ==> r.result == Failure(fn(k).error))
              && (fn(k).Threw? && !IsAbortError(fn(k).error) && (k == o.maxAttempts - 1 || !ShouldRetry(o, AsError(fn(k).error)))
                  ==> r.result == Failure(AsError(fn(k).error)))
              && (fn(k).Threw? && !IsAbortError(fn(k).error) && k != o.maxAttempts - 1 && ShouldRetry(o, AsError(fn(k).error))
                  ==> r.result.Failure? && MessageOf(r.result.error) == "The operation was aborted"
                      && !signal.NeverAborted?)
    decreases o.maxAttempts - attempt
  {
    if attempt < o.maxAttempts {
      var s := StepAt(fn, o, signal, jitter, attempt, lastError);
      StepFacts(fn, o, signal, jitter, attempt, lastError);
      if s.GoOn? {
        RetryLastCallDecides(fn, o, signal, jitter, attempt + 1, Some(s.last));
        var rest := RunFrom(fn, o, signal, jitter, attempt + 1, Some(s.last));
        if rest.calls == 0 {
          assert attempt + 1 < o.maxAttempts;
          assert rest.result == Failure(PreAttemptAbortError(Some(s.last)));
          assert signal == AbortedBeforeAttempt(attempt + 1);
        }
      }
    }
  }

  /** Without cancellation, errors that are always retried exhaust every attempt: `fn` is called
      exactly `maxAttempts` times and the last error is thrown. */
  lemma {:induction false} RetryExhaustsAttempts<T>(fn: nat -> Attempt<T>, o: RetryOptions,
                                                    jitter: nat -> real, attempt: nat, lastError: Option<Thrown>)
    requires attempt < o.maxAttempts
    requires forall k :: attempt <= k < o.maxAttempts ==>
               fn(k).Threw? && !IsAbortError(fn(k).error) && ShouldRetry(o, AsError(fn(k).error))
    ensures var r := RunFrom(fn, o, NeverAborted, jitter, attempt, lastError);
            r.calls == o.maxAttempts - attempt && |r.waits| == r.calls - 1
            && r.result == Failure(AsError(fn(o.maxAttempts - 1).error))
    decreases o.maxAttempts - attempt
  {
    assert fn(attempt).Threw?;
    if attempt < o.maxAttempts - 1 {
      RetryExhaustsAttempts(fn, o, jitter, attempt + 1, Some(AsError(fn(attempt).error)));
    }
  }

  /** With `maxAttempts <= 0`, `fn` is never called and `'Retry failed'` is thrown; with a signal already
      aborted, `fn` is never called and the error thrown is a plain Error that `isAbortError` does not
      recognise. */
  lemma RetryWithoutCalls<T>(fn: nat -> Attempt<T>, o: RetryOptions, signal: AbortSchedule, jitter: nat -> real)
    ensures o.maxAttempts <= 0 ==>
              RunFrom(fn, o, signal, jitter, 0, None) == RetryRun(Failure(PlainError("Retry failed")), 0, [])
    ensures 0 < o.maxAttempts && signal == AbortedBeforeAttempt(0) ==>
              var r := RunFrom(fn, o, signal, jitter, 0, None);
              r.calls == 0 && r.result == Failure(PlainError("The operation was aborted"))
              && !IsAbortError(r.result.error)
  {
  }

  /** A wait is the rate-limit error's own `retryAfter` when that is truthy, and otherwise a backoff
      in [0, 1.3 * maxDelayMs]. */
  lemma WaitRule(e: Thrown, attempt: nat, o: RetryOptions, u: real)
    requires -1.0 <= u < 1.0 && 0 <= o.maxDelayMs
    ensures var hinted := e.LLMError? && e.err.kind.RateLimit? && e.err.kind.retryAfter.Some?
                          && e.err.kind.retryAfter.value != 0;
            (hinted ==> WaitFor(e, attempt, o, u) == e.err.kind.retryAfter.value as real)
            && (!hinted ==> 0.0 <= WaitFor(e, attempt, o, u) <= 1.3 * o.maxDelayMs as real)
  {
    BackoffBounds(attempt, o.initialDelayMs, o.maxDelayMs, u);
  }
}
