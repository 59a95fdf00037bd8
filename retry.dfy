/**
 * The retry engine of `src/utils/retryUtils.js`: the `RetryManager`
 * configuration, its three retry conditions, the backoff formula, the error
 * wrapper and the bounded retry loop `withRetry`.
 */
module Retry {
  import opened Wrappers
  import opened Text
  import opened Errors

  /**
   * A `RetryManager`'s configuration. It never changes after construction,
   * so the manager is represented by this record. `jitter` is not carried:
   * the model computes every delay with jitter switched off.
   */
  datatype RetryConfig = RetryConfig(
    maxRetries: nat,
    baseDelay: nat,
    maxDelay: nat,
    exponentialBase: nat,
    retryCondition: JsError -> bool)

  /** The smallest delay `calculateDelay` ever returns, in milliseconds. */
  const MinDelay: nat := 100

  /** HTTP statuses worth retrying: server errors, 429 (rate limited) and 408 (timeout). */
  predicate RetryableStatus(status: int) {
    status >= 500 || status == 429 || status == 408
  }

  /** `isRetryableError`, the default retry condition. */
  function IsRetryableError(e: JsError): (r: bool)
    // With an HTTP response the status alone decides; the message is not consulted.
    ensures e.response.Some? && !(e.name == "TypeError" && Contains(e.message, "fetch")) ==>
      (r <==> RetryableStatus(e.response.value.status))
    // A failed `fetch` is always retried.
    ensures e.name == "TypeError" && Contains(e.message, "fetch") ==> r
    // Without a response, only a timeout code or a timeout/network/connection message is retried.
    ensures e.response.None? && !(e.name == "TypeError" && Contains(e.message, "fetch")) ==>
      (r <==> e.code == Named("TIMEOUT") || Contains(e.message, "timeout")
              || Contains(e.message, "network") || Contains(e.message, "connection"))
  {
    if e.name == "TypeError" && Contains(e.message, "fetch") then true
    else if e.response.Some? then RetryableStatus(e.response.value.status)
    else
      e.code == Named("TIMEOUT")
      || Contains(e.message, "timeout")
      || Contains(e.message, "network")
      || Contains(e.message, "connection")
  }

  /** The retry condition of the `pinataRetry` manager. */
  function PinataRetryCondition(e: JsError): (r: bool)
    ensures e.response.Some? ==> (r <==> RetryableStatus(e.response.value.status))
    ensures e.response.None? ==>
      (r <==> e.name == "TypeError" || Contains(e.message, "network") || Contains(e.message, "timeout"))
  {
    if e.response.Some? then RetryableStatus(e.response.value.status)
    else e.name == "TypeError" || Contains(e.message, "network") || Contains(e.message, "timeout")
  }

  /** Errors that a blockchain operation must never repeat: the user said no, or the balance is short. */
  predicate IsUserOrFundsError(e: JsError) {
    e.code == Named("USER_REJECTED")
    || e.code == Named("INSUFFICIENT_FUNDS")
    || Contains(e.message, "rejected")
    || Contains(e.message, "insufficient")
  }

  /** The retry condition of the `blockchainRetry` manager. */
  function BlockchainRetryCondition(e: JsError): (r: bool)
    // A rejection or a funds problem is never retried, whatever else the message says.
    ensures IsUserOrFundsError(e) ==> !r
    ensures r <==> (!IsUserOrFundsError(e) && (
                      e.code == Named("NETWORK_ERROR") || e.code == Named("TIMEOUT")
                      || e.code == Named("UNPREDICTABLE_GAS_LIMIT")
                      || Contains(e.message, "network") || Contains(e.message, "timeout")))
  {
    if IsUserOrFundsError(e) then false
    else
      e.code == Named("NETWORK_ERROR")
      || e.code == Named("TIMEOUT")
      || e.code == Named("UNPREDICTABLE_GAS_LIMIT")
      || Contains(e.message, "network")
      || Contains(e.message, "timeout")
  }

  /** `new RetryManager()` with no overrides. */
  function DefaultConfig(): RetryConfig {
    RetryConfig(3, 1000, 30000, 2, IsRetryableError)
  }

  /** The exported `pinataRetry` manager (file uploads). */
  function PinataRetry(): RetryConfig {
    RetryConfig(3, 2000, 60000, 2, PinataRetryCondition)
  }

  /** The exported `apiRetry` manager. */
  function ApiRetry(): RetryConfig {
    RetryConfig(3, 1000, 15000, 2, IsRetryableError)
  }

  /** The exported `blockchainRetry` manager: fewer retries to avoid double spending. */
  function BlockchainRetry(): RetryConfig {
    RetryConfig(2, 1500, 10000, 2, BlockchainRetryCondition)
  }

  function Pow(b: nat, n: nat): nat {
    if n == 0 then 1 else b * Pow(b, n - 1)
  }

  lemma {:induction false} PowMonotone(b: nat, m: nat, n: nat)
    requires b >= 1 && m <= n
    ensures Pow(b, m) <= Pow(b, n)
  {
    if m < n {
      PowMonotone(b, m, n - 1);
      assert Pow(b, n - 1) <= b * Pow(b, n - 1);
    }
  }

  function Min(a: int, b: int): int { if a <= b then a else b }
  function Max(a: int, b: int): int { if a >= b then a else b }

  /**
   * The base of the backoff for one error: `retry-after` seconds for a 429
   * response that carries the header, five times the configured base for a
   * 429 without it, and the configured base otherwise.
   */
  function BackoffBase(cfg: RetryConfig, e: JsError): (r: nat)
    ensures e.response.Some? && e.response.value.status == 429 && e.response.value.retryAfter.Some? ==>
      r == e.response.value.retryAfter.value * 1000
    ensures e.response.Some? && e.response.value.status == 429 && e.response.value.retryAfter.None? ==>
      r == 5 * cfg.baseDelay
    ensures !(e.response.Some? && e.response.value.status == 429) ==> r == cfg.baseDelay
  {
    if e.response.Some? && e.response.value.status == 429 then
      match e.response.value.retryAfter
      case Some(seconds) => seconds * 1000
      case None => cfg.baseDelay * 5
    else cfg.baseDelay
  }

  /**
   * `calculateDelay` with jitter off: exponential growth of the base,
   * capped at `maxDelay`, never below 100 ms.
   */
  function CalculateDelay(cfg: RetryConfig, attempt: nat, e: JsError): (r: nat)
    ensures r >= MinDelay
    ensures r <= Max(cfg.maxDelay, MinDelay)
    ensures r == MinDelay || r == cfg.maxDelay || r == BackoffBase(cfg, e) * Pow(cfg.exponentialBase, attempt)
  {
    Max(Min(BackoffBase(cfg, e) * Pow(cfg.exponentialBase, attempt), cfg.maxDelay), MinDelay)
  }

  lemma MulMonotone(a: nat, b: nat, c: nat)
    requires b <= c
    ensures a * b <= a * c
  {}

  /** For a fixed error and a base of at least 1, later attempts never wait less. */
  lemma DelayNonDecreasing(cfg: RetryConfig, e: JsError, m: nat, n: nat)
    requires cfg.exponentialBase >= 1 && m <= n
    ensures CalculateDelay(cfg, m, e) <= CalculateDelay(cfg, n, e)
  {
    PowMonotone(cfg.exponentialBase, m, n);
    MulMonotone(BackoffBase(cfg, e), Pow(cfg.exponentialBase, m), Pow(cfg.exponentialBase, n));
  }

  /**
   * A 429 response without `retry-after` waits at least as long as the same
   * failure with any other status would, at every attempt.
   */
  lemma RateLimitWaitsLonger(cfg: RetryConfig, attempt: nat, status: int, message: string)
    requires status != 429
    ensures CalculateDelay(cfg, attempt, JsError("Error", message, NoCode, "", Some(HttpResponse(429, None))))
         >= CalculateDelay(cfg, attempt, JsError("Error", message, NoCode, "", Some(HttpResponse(status, None))))
  {}

  /** An error whose backoff starts from the configured base: anything but a 429 response. */
  predicate NotRateLimited(e: JsError) {
    !(e.response.Some? && e.response.value.status == 429)
  }

  /** An error that is a 429 response without a `retry-after` header. */
  predicate RateLimitedWithoutHint(e: JsError) {
    e.response.Some? && e.response.value.status == 429 && e.response.value.retryAfter.None?
  }

  /**
   * The default manager: at most four calls, the default condition, and
   * waits of 1, 2 and 4 seconds (5, 10 and 20 after a bare 429).
   */
  lemma DefaultSchedule(e: JsError)
    ensures DefaultConfig().maxRetries + 1 == 4
    ensures DefaultConfig().retryCondition(e) == IsRetryableError(e)
    ensures NotRateLimited(e) ==>
      [CalculateDelay(DefaultConfig(), 0, e), CalculateDelay(DefaultConfig(), 1, e),
       CalculateDelay(DefaultConfig(), 2, e)] == [1000, 2000, 4000]
    ensures RateLimitedWithoutHint(e) ==>
      [CalculateDelay(DefaultConfig(), 0, e), CalculateDelay(DefaultConfig(), 1, e),
       CalculateDelay(DefaultConfig(), 2, e)] == [5000, 10000, 20000]
  {
    assert Pow(2, 2) == 4;
  }

  /**
   * `pinataRetry`: at most four calls, the Pinata condition, and waits of
   * 2, 4 and 8 seconds (10, 20 and 40 after a bare 429).
   */
  lemma PinataSchedule(e: JsError)
    ensures PinataRetry().maxRetries + 1 == 4
    ensures PinataRetry().retryCondition(e) == PinataRetryCondition(e)
    ensures NotRateLimited(e) ==>
      [CalculateDelay(PinataRetry(), 0, e), CalculateDelay(PinataRetry(), 1, e),
       CalculateDelay(PinataRetry(), 2, e)] == [2000, 4000, 8000]
    ensures RateLimitedWithoutHint(e) ==>
      [CalculateDelay(PinataRetry(), 0, e), CalculateDelay(PinataRetry(), 1, e),
       CalculateDelay(PinataRetry(), 2, e)] == [10000, 20000, 40000]
  {
    assert Pow(2, 2) == 4;
  }

  /**
   * `apiRetry`: the default condition with a 15-second cap, which a bare 429
   * reaches at the third wait.
   */
  lemma ApiSchedule(e: JsError)
    ensures ApiRetry().maxRetries + 1 == 4
    ensures ApiRetry().retryCondition(e) == IsRetryableError(e)
    ensures NotRateLimited(e) ==>
      [CalculateDelay(ApiRetry(), 0, e), CalculateDelay(ApiRetry(), 1, e),
       CalculateDelay(ApiRetry(), 2, e)] == [1000, 2000, 4000]
    ensures RateLimitedWithoutHint(e) ==>
      [CalculateDelay(ApiRetry(), 0, e), CalculateDelay(ApiRetry(), 1, e),
       CalculateDelay(ApiRetry(), 2, e)] == [5000, 10000, 15000]
  {
    assert Pow(2, 2) == 4;
  }

  /**
   * `blockchainRetry`: at most three calls, the blockchain condition (so a
   * rejection is never repeated), and waits of 1.5 and 3 seconds (7.5 and the
   * 10-second cap after a bare 429).
   */
  lemma BlockchainSchedule(e: JsError)
    ensures BlockchainRetry().maxRetries + 1 == 3
    ensures BlockchainRetry().retryCondition(e) == BlockchainRetryCondition(e)
    ensures IsUserOrFundsError(e) ==> !BlockchainRetry().retryCondition(e)
    ensures NotRateLimited(e) ==>
      [CalculateDelay(BlockchainRetry(), 0, e), CalculateDelay(BlockchainRetry(), 1, e)] == [1500, 3000]
    ensures RateLimitedWithoutHint(e) ==>
      [CalculateDelay(BlockchainRetry(), 0, e), CalculateDelay(BlockchainRetry(), 1, e)] == [7500, 10000]
  {
    assert Pow(2, 1) == 2;
  }

  /** The error `withRetry` throws once it gives up. */
  datatype EnhancedError = EnhancedError(
    message: string,
    originalError: JsError,
    operationName: string,
    totalAttempts: nat,
    isRetryable: bool)

  /** `enhanceError`: the wrapped error; its creation time is not modelled. */
  function EnhanceError(cfg: RetryConfig, original: JsError, operationName: string, totalAttempts: nat): (r: EnhancedError)
    ensures r.message == operationName + " failed after " + NatToString(totalAttempts) + " attempts: " + original.message
    ensures r.originalError == original && r.operationName == operationName
    ensures r.totalAttempts == totalAttempts
    ensures r.isRetryable == cfg.retryCondition(original)
  {
    EnhancedError(
      operationName + " failed after " + NatToString(totalAttempts) + " attempts: " + original.message,
      original, operationName, totalAttempts, cfg.retryCondition(original))
  }

  /** What one call of the operation does: resolve with a value or throw. */
  datatype Outcome<T> = Resolved(value: T) | Threw(error: JsError)

  /** What `withRetry` does in the end: return the operation's value or throw the wrapped error. */
  datatype RetryResult<T> = Returned(value: T) | Failed(error: EnhancedError)

  /**
   * `withRetry`. The operation is a script: `operation(k)` is what the call
   * made on attempt `k` does. Returns the result, the number of calls made and
   * the delays slept, in order.
   */
  method WithRetry<T>(cfg: RetryConfig, operation: nat -> Outcome<T>, operationName: string)
    returns (result: RetryResult<T>, calls: nat, sleeps: seq<nat>)
    ensures 1 <= calls <= cfg.maxRetries + 1
    // Every call but the last failed with a retryable error and was followed by its backoff.
    ensures |sleeps| == calls - 1
    ensures forall k :: 0 <= k < calls - 1 ==>
      operation(k).Threw? && cfg.retryCondition(operation(k).error)
      && sleeps[k] == CalculateDelay(cfg, k, operation(k).error)
    // The first success is returned at once.
    ensures result.Returned? <==> operation(calls - 1).Resolved?
    ensures result.Returned? ==> result.value == operation(calls - 1).value
    // A failure ends the loop only when it is not retryable or no retry is left.
    ensures result.Failed? ==>
      && (!cfg.retryCondition(operation(calls - 1).error) || calls == cfg.maxRetries + 1)
      && result.error == EnhanceError(cfg, operation(calls - 1).error, operationName, calls)
  {
    var attempt: nat := 0;
    sleeps := [];
    while true
      invariant attempt <= cfg.maxRetries
      invariant |sleeps| == attempt
      invariant forall k :: 0 <= k < attempt ==>
        operation(k).Threw? && cfg.retryCondition(operation(k).error)
        && sleeps[k] == CalculateDelay(cfg, k, operation(k).error)
      decreases cfg.maxRetries - attempt
    {
      match operation(attempt)
      case Resolved(v) =>
        return Returned(v), attempt + 1, sleeps;
      case Threw(error) =>
        if !cfg.retryCondition(error) {
          return Failed(EnhanceError(cfg, error, operationName, attempt + 1)), attempt + 1, sleeps;
        }
        if attempt == cfg.maxRetries {
          return Failed(EnhanceError(cfg, error, operationName, cfg.maxRetries + 1)), attempt + 1, sleeps;
        }
        sleeps := sleeps + [CalculateDelay(cfg, attempt, error)];
        attempt := attempt + 1;
    }
  }

  /**
   * The HTTP rule is shared: on an error with a response (and not a
   * `TypeError`), the Pinata condition and the default condition agree.
   */
  lemma PinataAgreesOnHttpErrors(e: JsError)
    requires e.response.Some? && e.name != "TypeError"
    ensures PinataRetryCondition(e) == IsRetryableError(e)
  {}
}
