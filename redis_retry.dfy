/** The reconnection back-off of the Redis client (server/config/redis.js):
    after each failed attempt the client asks `retry_strategy` for a delay
    in milliseconds; a thrown error ends the retries. */
module RedisRetry {
  import opened Js

  /** What the client passes to `retry_strategy`: the attempt number, the
      time spent retrying so far, and the code of the error, if any. */
  datatype RetryOptions = RetryOptions(attempt: int, totalRetryTime: int, errorCode: Option<Value>)

  /** Either wait `delay` milliseconds and retry, or give up with the error. */
  datatype RetryDecision = RetryAfter(delay: int) | GiveUp(reason: string)

  /** One hour, in milliseconds. */
  const MaxRetryTime := 1000 * 60 * 60
  const MaxAttempts := 10
  const MaxDelay := 3000

  const Refused := "Redis server refused connection"
  const TimeExhausted := "Redis retry time exhausted"
  const AttemptsExhausted := "Redis max retry attempts reached"

  /** `Math.min(attempt * 100, 3000)` */
  function Backoff(attempt: int): (delay: int)
    ensures delay <= MaxDelay
    ensures delay == attempt * 100 || delay == MaxDelay
    ensures attempt * 100 <= MaxDelay ==> delay == attempt * 100
  {
    if attempt * 100 < MaxDelay then attempt * 100 else MaxDelay
  }

  /** A later attempt never waits less. */
  lemma BackoffMonotone(a: int, b: int)
    requires a <= b
    ensures Backoff(a) <= Backoff(b)
  {
  }

  /** `options.error && options.error.code === 'ECONNREFUSED'` */
  predicate ConnectionRefused(o: RetryOptions) {
    o.errorCode.Some? && StrictEquals(o.errorCode.value, Str("ECONNREFUSED"))
  }

  /** The development strategy: give up on a refused connection, then after
      an hour of retrying, then after ten attempts, in that order; otherwise
      back off. */
  function DevelopmentRetry(o: RetryOptions): (d: RetryDecision)
    ensures d == GiveUp(Refused) <==> ConnectionRefused(o)
    ensures d == GiveUp(TimeExhausted) <==> !ConnectionRefused(o) && o.totalRetryTime > MaxRetryTime
    ensures d == GiveUp(AttemptsExhausted) <==>
      !ConnectionRefused(o) && o.totalRetryTime <= MaxRetryTime && o.attempt > MaxAttempts
    ensures d.RetryAfter? ==> d.delay == Backoff(o.attempt) && o.attempt <= MaxAttempts && d.delay <= 1000
    ensures !ConnectionRefused(o) && o.totalRetryTime <= MaxRetryTime && o.attempt <= MaxAttempts ==>
      d == RetryAfter(Backoff(o.attempt))
  {
    if ConnectionRefused(o) then GiveUp(Refused)
    else if o.totalRetryTime > MaxRetryTime then GiveUp(TimeExhausted)
    else if o.attempt > MaxAttempts then GiveUp(AttemptsExhausted)
    else RetryAfter(Backoff(o.attempt))
  }

  /** The production strategy: give up only after an hour of retrying. */
  function ProductionRetry(o: RetryOptions): (d: RetryDecision)
    ensures d.GiveUp? <==> o.totalRetryTime > MaxRetryTime
    ensures d.GiveUp? ==> d.reason == TimeExhausted
    ensures d.RetryAfter? ==> d.delay == Backoff(o.attempt)
  {
    if o.totalRetryTime > MaxRetryTime then GiveUp(TimeExhausted)
    else RetryAfter(Backoff(o.attempt))
  }

  /** Development is the stricter strategy: whenever it retries, production
      retries after the same delay. */
  lemma DevelopmentStricter(o: RetryOptions)
    requires DevelopmentRetry(o).RetryAfter?
    ensures ProductionRetry(o) == DevelopmentRetry(o)
  {
  }

  /** A refused connection ends development retries at once, even on the
      first attempt, while production keeps retrying it within the hour. */
  lemma RefusedOnFirstAttempt(code: Value)
    requires code == Str("ECONNREFUSED")
    ensures DevelopmentRetry(RetryOptions(1, 0, Some(code))) == GiveUp(Refused)
    ensures ProductionRetry(RetryOptions(1, 0, Some(code))) == RetryAfter(100)
  {
  }
}
