/**
 * Retry with exponential backoff (`frontend/src/utils/retry.js`). The
 * wrapped function is modelled by the outcome of each of its invocations
 * (`fn(i)` is what the `i`-th call returns or throws); the waits are recorded
 * instead of slept.
 */
module Retry {
  import opened Wrappers
  import opened Errors

  /** What one invocation of the wrapped function did. */
  datatype Attempt<T> = Ok(value: T) | Err(error: HttpError)

  /** The options as passed: any field may be omitted. */
  datatype RetryOptions = RetryOptions(
    maxRetries: Option<int>,
    initialDelay: Option<int>,
    maxDelay: Option<int>,
    shouldRetry: Option<HttpError -> bool>)

  /** The options after defaults are applied. */
  datatype Policy = Policy(maxRetries: int, initialDelay: int, maxDelay: int)

  const DefaultMaxRetries: int := 3
  const DefaultInitialDelay: int := 1000
  const DefaultMaxDelay: int := 10000

  /** What `retryWithBackoff` settles to: a value, or the thrown error (`None` is the never-assigned `lastError`). */
  datatype Outcome<T> = Returned(value: T) | Threw(error: Option<HttpError>)

  /** The outcome, how many times the function was called, and the waits between calls. */
  datatype Run<T> = Run(outcome: Outcome<T>, calls: nat, waits: seq<int>)

  function Resolve(o: RetryOptions): (p: Policy)
    ensures p.maxRetries == o.maxRetries.GetOr(3)
    ensures p.initialDelay == o.initialDelay.GetOr(1000)
    ensures p.maxDelay == o.maxDelay.GetOr(10000)
  {
    Policy(o.maxRetries.GetOr(DefaultMaxRetries), o.initialDelay.GetOr(DefaultInitialDelay), o.maxDelay.GetOr(DefaultMaxDelay))
  }

  /** The default policy: retry transport failures and 5xx responses, nothing else. */
  predicate DefaultShouldRetry(e: HttpError) {
    IsNetworkError(e) || (e.response.Some? && e.response.value.status >= 500)
  }

  function ShouldRetry(o: RetryOptions): HttpError -> bool {
    o.shouldRetry.GetOr(DefaultShouldRetry)
  }

  function Min(a: int, b: int): int {
    if a <= b then a else b
  }

  /** The `i`-th wait of a policy: `initialDelay`, then each one double the last, capped at `maxDelay`. */
  function Delay(p: Policy, i: nat): int {
    if i == 0 then p.initialDelay else Min(2 * Delay(p, i - 1), p.maxDelay)
  }

  /**
   * The loop from attempt `attempt` on, with `waits` the waits so far. The
   * run stops at the first success, at the first error `shouldRetry`
   * rejects, or after attempt `maxRetries`; every attempt it passed over
   * threw a retryable error.
   */
  function Loop<T>(fn: nat -> Attempt<T>, p: Policy, shouldRetry: HttpError -> bool, attempt: nat, waits: seq<int>): (r: Run<T>)
    requires attempt <= p.maxRetries
    requires |waits| == attempt
    requires forall i :: 0 <= i < attempt ==> waits[i] == Delay(p, i)
    ensures attempt < r.calls <= p.maxRetries + 1
    ensures |r.waits| == r.calls - 1
    ensures forall i :: 0 <= i < |r.waits| ==> r.waits[i] == Delay(p, i)
    ensures forall i :: attempt <= i < r.calls - 1 ==> fn(i).Err? && shouldRetry(fn(i).error)
    ensures r.outcome.Returned? ==> fn(r.calls - 1) == Ok(r.outcome.value)
    ensures r.outcome.Threw? ==>
      && r.outcome.error.Some?
      && fn(r.calls - 1) == Err(r.outcome.error.value)
      && (r.calls == p.maxRetries + 1 || !shouldRetry(r.outcome.error.value))
    decreases p.maxRetries - attempt
  {
    match fn(attempt)
    case Ok(v) => Run(Returned(v), attempt + 1, waits)
    case Err(e) =>
      if attempt == p.maxRetries || !shouldRetry(e) then Run(Threw(Some(e)), attempt + 1, waits)
      else Loop(fn, p, shouldRetry, attempt + 1, waits + [Delay(p, attempt)])
  }

  /**
   * `retryWithBackoff(fn, options)`. The function is called at most
   * `maxRetries + 1` times, once between consecutive calls a wait is taken,
   * and the run settles with the first success or with the error of its last
   * call; a negative `maxRetries` calls nothing and throws `undefined`.
   */
  function RetryWithBackoff<T>(fn: nat -> Attempt<T>, o: RetryOptions): (r: Run<T>)
    ensures var p := Resolve(o);
      && (p.maxRetries < 0 ==> r == Run(Threw(None), 0, []))
      && (p.maxRetries >= 0 ==>
        && 1 <= r.calls <= p.maxRetries + 1
        && |r.waits| == r.calls - 1
        && (forall i :: 0 <= i < |r.waits| ==> r.waits[i] == Delay(p, i))
        && (forall i :: 0 <= i < r.calls - 1 ==> fn(i).Err? && ShouldRetry(o)(fn(i).error))
        && (r.outcome.Returned? ==> fn(r.calls - 1) == Ok(r.outcome.value))
        && (r.outcome.Threw? ==>
              && r.outcome.error.Some? && fn(r.calls - 1) == Err(r.outcome.error.value)
              && (r.calls == p.maxRetries + 1 || !ShouldRetry(o)(r.outcome.error.value))))
  {
    var p := Resolve(o);
    if p.maxRetries < 0 then Run(Threw(None), 0, [])
    else Loop(fn, p, ShouldRetry(o), 0, [])
  }

  /** The first success ends the run: its value is returned and no later call is made. */
  lemma {:induction false} StopsAtFirstSuccess<T>(fn: nat -> Attempt<T>, o: RetryOptions, k: nat)
    requires k <= Resolve(o).maxRetries
    requires forall i :: 0 <= i < k ==> fn(i).Err? && ShouldRetry(o)(fn(i).error)
    requires fn(k).Ok?
    ensures RetryWithBackoff(fn, o).outcome == Returned(fn(k).value)
    ensures RetryWithBackoff(fn, o).calls == k + 1
  {
    var r := RetryWithBackoff(fn, o);
    assert r.calls - 1 == k;
  }

  /** An error the policy does not retry ends the run at once: a first-call 4xx means exactly one call. */
  lemma NonRetryableThrowsAtOnce<T>(fn: nat -> Attempt<T>, o: RetryOptions)
    requires Resolve(o).maxRetries >= 0
    requires fn(0).Err? && !ShouldRetry(o)(fn(0).error)
    ensures RetryWithBackoff(fn, o) == Run(Threw(Some(fn(0).error)), 1, [])
  {
  }

  /** When every call throws a retryable error, all `maxRetries + 1` calls are made and the last error is thrown. */
  lemma ExhaustionThrowsLastError<T>(fn: nat -> Attempt<T>, o: RetryOptions)
    requires Resolve(o).maxRetries >= 0
    requires forall i :: 0 <= i <= Resolve(o).maxRetries ==> fn(i).Err? && ShouldRetry(o)(fn(i).error)
    ensures RetryWithBackoff(fn, o).calls == Resolve(o).maxRetries + 1
    ensures RetryWithBackoff(fn, o).outcome == Threw(Some(fn(Resolve(o).maxRetries).error))
  {
    var r := RetryWithBackoff(fn, o);
    assert fn(r.calls - 1).Err?;
  }

  /** Every wait after the first is at most `maxDelay`. */
  lemma DelayCapped(p: Policy, i: nat)
    requires i >= 1
    ensures Delay(p, i) <= p.maxDelay
  {
  }

  /** With `0 <= initialDelay <= maxDelay` the waits never shrink. */
  lemma {:induction false} DelayMonotone(p: Policy, i: nat)
    requires 0 <= p.initialDelay <= p.maxDelay
    ensures 0 <= Delay(p, i) <= Delay(p, i + 1) <= p.maxDelay
  {
    if i > 0 {
      DelayMonotone(p, i - 1);
    }
  }

  function Pow2(n: nat): nat {
    if n == 0 then 1 else 2 * Pow2(n - 1)
  }

  /** For non-negative settings the `i`-th wait is `min(initialDelay * 2^i, maxDelay)` once `i >= 1`. */
  lemma {:induction false} DelayClosedForm(p: Policy, i: nat)
    requires p.initialDelay >= 0 && p.maxDelay >= 0 && i >= 1
    ensures Delay(p, i) == Min(p.initialDelay * Pow2(i), p.maxDelay)
  {
    if i > 1 {
      DelayClosedForm(p, i - 1);
      assert 2 * (p.initialDelay * Pow2(i - 1)) == p.initialDelay * Pow2(i);
    }
  }

  /** A 4xx response without a transport-failure marker is not retried by default; a 5xx response is. */
  lemma DefaultPolicyByStatus(e: HttpError)
    requires e.response.Some?
    ensures e.response.value.status >= 500 ==> DefaultShouldRetry(e)
    ensures 400 <= e.response.value.status < 500 && !IsNetworkError(e) ==> !DefaultShouldRetry(e)
  {
  }

  /** Two 503s then a success, with three retries allowed: the value comes back after three calls and two waits. */
  lemma TwoServerErrorsThenSuccess<T>(fn: nat -> Attempt<T>, v: T)
    requires fn(0) == fn(1) == Err(HttpError(None, Some("Request failed"), Some(ErrorResponse(503, Js.Null))))
    requires fn(2) == Ok(v)
    ensures RetryWithBackoff(fn, RetryOptions(Some(3), None, None, None)) == Run(Returned(v), 3, [1000, 2000])
  {
    var o := RetryOptions(Some(3), None, None, None);
    var p := Resolve(o);
    assert DefaultShouldRetry(fn(0).error);
    var r := RetryWithBackoff(fn, o);
    StopsAtFirstSuccess(fn, o, 2);
    assert Delay(p, 1) == 2000;
    assert r.waits == [Delay(p, 0), Delay(p, 1)];
  }

  /** `withRetry(fn)(...args)`: every call of the wrapped function receives `args`. */
  function WithRetry<A, T>(fn: (A, nat) -> Attempt<T>, o: RetryOptions, args: A): Run<T> {
    RetryWithBackoff(i => fn(args, i), o)
  }

  lemma {:induction false} LoopDependsOnlyOnOutcomes<T>(f: nat -> Attempt<T>, g: nat -> Attempt<T>, p: Policy,
                                                       shouldRetry: HttpError -> bool, attempt: nat, waits: seq<int>)
    requires attempt <= p.maxRetries && |waits| == attempt
    requires forall i :: 0 <= i < attempt ==> waits[i] == Delay(p, i)
    requires forall i :: attempt <= i ==> f(i) == g(i)
    ensures Loop(f, p, shouldRetry, attempt, waits) == Loop(g, p, shouldRetry, attempt, waits)
    decreases p.maxRetries - attempt
  {
    if f(attempt).Err? && attempt < p.maxRetries && shouldRetry(f(attempt).error) {
      LoopDependsOnlyOnOutcomes(f, g, p, shouldRetry, attempt + 1, waits + [Delay(p, attempt)]);
    }
  }

  /**
   * The wrapper forwards its arguments unchanged and adds nothing else: two
   * functions that behave the same on `args` give the same run.
   */
  lemma WithRetryForwardsArguments<A, T>(f: (A, nat) -> Attempt<T>, g: (A, nat) -> Attempt<T>, o: RetryOptions, args: A)
    requires forall i :: f(args, i) == g(args, i)
    ensures WithRetry(f, o, args) == WithRetry(g, o, args)
  {
    if Resolve(o).maxRetries >= 0 {
      LoopDependsOnlyOnOutcomes(i => f(args, i), i => g(args, i), Resolve(o), ShouldRetry(o), 0, []);
    }
  }
}
