/**
 The bounded retry loop around the gateway (`SendPaymentRequestWithRetryAsync`).
 Attempt number `n` (counting from 1) sees the `n`-th entry of a scripted
 sequence of raw attempts. A conclusive attempt resets the breaker and ends
 the loop; a transient one is retried after a delay, except on the last
 attempt, which records one breaker failure and gives up.
 */
module Retry {
  import opened Options
  import opened CircuitBreaker
  import opened Gateway

  /** Attempts per call. */
  const MaxRetries: nat := 3

  /** The base delay between attempts: one second, in ticks. */
  const RetryDelay: nat := TicksPerSecond

  /** The raw attempt number `i + 1` sees. Past the end of the script the
      gateway gives no response at all, which the HTTP client reports with an
      exception the loop's generic handler catches. */
  function AttemptAt(script: seq<RawAttempt>, i: nat): RawAttempt {
    if i < |script| then script[i] else Threw(OtherException)
  }

  /** The classified outcome of attempt number `i + 1`. */
  function OutcomeAt(script: seq<RawAttempt>, i: nat): AttemptOutcome {
    Classify(AttemptAt(script, i))
  }

  /** Attempt `i + 1` is the first conclusive one and lies within the limit. */
  predicate FirstConclusive(script: seq<RawAttempt>, i: nat) {
    && i < MaxRetries
    && OutcomeAt(script, i).Conclusive?
    && forall j :: 0 <= j < i ==> OutcomeAt(script, j).Transient?
  }

  /** No attempt within the limit is conclusive. */
  predicate AllTransient(script: seq<RawAttempt>) {
    forall j :: 0 <= j < MaxRetries ==> OutcomeAt(script, j).Transient?
  }

  /** The wait after a transient attempt number `attempt`: the base delay
      times the attempt number, so the delays grow linearly. */
  function BackoffDelay(attempt: nat): (d: nat)
    ensures attempt > 0 ==> BackoffDelay(attempt) > 0
  {
    RetryDelay * attempt
  }

  /** Sum of the waits after attempts `from` up to `to - 1`. */
  function WaitsBetween(from: nat, to: nat): nat
    decreases to - from
  {
    if from >= to then 0 else BackoffDelay(from) + WaitsBetween(from + 1, to)
  }

  /** What the loop hands back: the parsed response (absent when the loop
      gave up), the breaker it leaves, how many attempts it made, and the
      total backoff it waited between them. */
  datatype RetryRun = RetryRun(response: Option<GatewayResponse>, breaker: Breaker, attempts: nat, waited: nat)

  /** The loop from attempt number `attempt` on, for a breaker `b` that no
      earlier iteration has touched (transient attempts leave it alone). */
  function SendWithRetryFrom(b: Breaker, script: seq<RawAttempt>, attempt: nat, failedAt: Instant): (run: RetryRun)
    requires 1 <= attempt <= MaxRetries
    ensures attempt <= run.attempts <= MaxRetries
    ensures run.response.Some? ==>
      && OutcomeAt(script, run.attempts - 1) == Conclusive(run.response.value)
      && (forall j :: attempt - 1 <= j < run.attempts - 1 ==> OutcomeAt(script, j).Transient?)
      && run.breaker == ResetFailureCounter(b)
    ensures run.response.None? ==>
      && run.attempts == MaxRetries
      && (forall j :: attempt - 1 <= j < MaxRetries ==> OutcomeAt(script, j).Transient?)
      && run.breaker == RecordFailure(b, failedAt)
    ensures run.waited == WaitsBetween(attempt, run.attempts)
    decreases MaxRetries - attempt
  {
    match OutcomeAt(script, attempt - 1)
    case Conclusive(response) =>
      RetryRun(Some(response), ResetFailureCounter(b), attempt, 0)
    case Transient(_) =>
      if attempt == MaxRetries then
        RetryRun(None, RecordFailure(b, failedAt), attempt, 0)
      else
        var rest := SendWithRetryFrom(b, script, attempt + 1, failedAt);
        rest.(waited := BackoffDelay(attempt) + rest.waited)
  }

  /** The whole loop: at most `MaxRetries` attempts, stopping at the first
      conclusive one. A conclusive outcome resets the breaker; running out of
      attempts records exactly one failure stamped `failedAt`. */
  function SendPaymentRequestWithRetry(b: Breaker, script: seq<RawAttempt>, failedAt: Instant): (run: RetryRun)
    ensures 1 <= run.attempts <= MaxRetries
    ensures run.response.Some? ==>
      && FirstConclusive(script, run.attempts - 1)
      && OutcomeAt(script, run.attempts - 1) == Conclusive(run.response.value)
      && run.breaker == Closed
    ensures run.response.None? ==>
      && AllTransient(script)
      && run.attempts == MaxRetries
      && run.breaker == RecordFailure(b, failedAt)
    ensures run.waited == WaitsBetween(1, run.attempts)
  {
    SendWithRetryFrom(b, script, 1, failedAt)
  }

  /** The number of attempts is the position of the first conclusive outcome
      (counting from 1), and that outcome is what the loop returns. */
  lemma AttemptsStopAtFirstConclusive(b: Breaker, script: seq<RawAttempt>, failedAt: Instant, i: nat)
    requires FirstConclusive(script, i)
    ensures var run := SendPaymentRequestWithRetry(b, script, failedAt);
      run.attempts == i + 1 && run.response == Some(OutcomeAt(script, i).response)
  {
  }

  /** The loop gives up exactly when no attempt within the limit is
      conclusive; then it has made every attempt and recorded one failure. */
  lemma GivesUpIffAllTransient(b: Breaker, script: seq<RawAttempt>, failedAt: Instant)
    ensures var run := SendPaymentRequestWithRetry(b, script, failedAt);
      (run.response.None? <==> AllTransient(script))
      && (run.response.None? ==>
            && run.attempts == MaxRetries
            && run.breaker.consecutiveFailures == b.consecutiveFailures + 1
            && run.breaker.lastFailureTime == failedAt)
  {
  }

  /** The total wait of a call is 1 + 2 + ... + (attempts - 1) base delays:
      none for one attempt, one second for two, three seconds for three. */
  lemma WaitedIsTriangular(b: Breaker, script: seq<RawAttempt>, failedAt: Instant)
    ensures var run := SendPaymentRequestWithRetry(b, script, failedAt);
      2 * run.waited == RetryDelay * (run.attempts - 1) * run.attempts
  {
  }

  /** The source calls its schedule exponential; it is linear. Within the
      attempt limit the two coincide: the only waits are after attempts 1
      and 2, and one and two base delays are also one base delay doubled
      zero and one times. They part at attempt 3, which never waits. */
  lemma LinearBackoffMeetsDoublingWithinLimit()
    ensures forall attempt :: 1 <= attempt < MaxRetries ==>
      BackoffDelay(attempt) == RetryDelay * Pow2(attempt - 1)
    ensures BackoffDelay(MaxRetries) != RetryDelay * Pow2(MaxRetries - 1)
  {
  }

  function Pow2(n: nat): (p: nat)
    ensures p >= 1
  {
    if n == 0 then 1 else 2 * Pow2(n - 1)
  }
}
