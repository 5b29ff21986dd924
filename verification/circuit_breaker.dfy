/**
 The payment processor's circuit breaker: a count of consecutive gateway
 failures and the time of the last one. The breaker is open (calls are
 refused without reaching the gateway) while the count is at the threshold
 and the cool-down has not elapsed since the last failure; once it has
 elapsed, the next admission check closes it again lazily.
 */
module CircuitBreaker {

  /** A UTC clock reading in 100-nanosecond ticks since `DateTime.MinValue`. */
  type Instant = nat

  /** `DateTime.MinValue`: the sentinel the breaker holds when no failure is recorded. */
  const MinValue: Instant := 0

  const TicksPerSecond: nat := 10_000_000
  const TicksPerMinute: nat := 60 * TicksPerSecond

  /** Failures in a row that open the breaker. */
  const MaxConsecutiveFailures: nat := 3

  /** How long an open breaker refuses calls after its last failure: one minute. */
  const CircuitBreakerTimeout: nat := TicksPerMinute

  datatype Breaker = Breaker(consecutiveFailures: nat, lastFailureTime: Instant)

  /** The state the service starts in, and the one a reset returns to. */
  const Closed: Breaker := Breaker(0, MinValue)

  /** Whether calls are refused at `now`. A clock that went backwards gives a
      negative elapsed time, which is below the timeout, so the breaker stays open. */
  predicate IsOpenAt(b: Breaker, now: Instant) {
    b.consecutiveFailures >= MaxConsecutiveFailures && now - b.lastFailureTime < CircuitBreakerTimeout
  }

  /** Counts one more failure and stamps it with the current clock reading. */
  function RecordFailure(b: Breaker, now: Instant): (b': Breaker)
    ensures b'.consecutiveFailures == b.consecutiveFailures + 1
    ensures b'.lastFailureTime == now
  {
    Breaker(b.consecutiveFailures + 1, now)
  }

  /** Forgets every failure: zero count and the sentinel time. */
  function ResetFailureCounter(b: Breaker): (b': Breaker)
    ensures b'.consecutiveFailures == 0 && b'.lastFailureTime == MinValue
    ensures forall now :: !IsOpenAt(b', now)
  {
    Closed
  }

  /** The outcome of an admission check: whether the call is refused, and the
      breaker state the check leaves behind. */
  datatype Admission = Admission(open: bool, breaker: Breaker)

  /** `IsCircuitBreakerOpen`: refuses the call while the breaker is open;
      closes an expired open breaker (the boundary counts as expired) and
      otherwise leaves the state alone. */
  function IsCircuitBreakerOpen(b: Breaker, now: Instant): (a: Admission)
    ensures a.open <==> IsOpenAt(b, now)
    ensures a.open ==> a.breaker == b
    ensures !a.open && b.consecutiveFailures >= MaxConsecutiveFailures ==> a.breaker == Closed
    ensures b.consecutiveFailures < MaxConsecutiveFailures ==> a.breaker == b
    ensures !a.open ==> a.breaker.consecutiveFailures < MaxConsecutiveFailures
  {
    if b.consecutiveFailures >= MaxConsecutiveFailures then
      if now - b.lastFailureTime < CircuitBreakerTimeout then
        Admission(true, b)
      else
        Admission(false, ResetFailureCounter(b))
    else
      Admission(false, b)
  }

  /** The breaker invariant at clock reading `clock`: the count never passes
      the threshold; a zero count comes with the sentinel time, and a positive
      one with a real clock reading (later than the sentinel, as every reading
      `RecordFailure` takes is); and that reading is no later than `clock`. */
  predicate Valid(b: Breaker, clock: Instant) {
    && b.consecutiveFailures <= MaxConsecutiveFailures
    && (b.consecutiveFailures == 0 <==> b.lastFailureTime == MinValue)
    && b.lastFailureTime <= clock
  }

  /** The invariant survives the clock moving forward. */
  lemma ValidLater(b: Breaker, clock: Instant, later: Instant)
    requires Valid(b, clock) && clock <= later
    ensures Valid(b, later)
  {
  }

  /** An admission check keeps the invariant, and what it lets through has
      room for one more failure. */
  lemma AdmissionKeepsValid(b: Breaker, now: Instant)
    requires Valid(b, now)
    ensures Valid(IsCircuitBreakerOpen(b, now).breaker, now)
  {
  }

  /** Recording a failure on a breaker below the threshold, at a real clock
      reading, keeps the invariant, and the failure it records is the one the
      stamp names. */
  lemma RecordFailureKeepsValid(b: Breaker, clock: Instant, now: Instant)
    requires Valid(b, clock) && clock <= now && MinValue < now
    requires b.consecutiveFailures < MaxConsecutiveFailures
    ensures Valid(RecordFailure(b, now), now)
    ensures RecordFailure(b, now).consecutiveFailures > 0
  {
  }

  /** A reset is valid at every clock reading. */
  lemma ResetKeepsValid(b: Breaker, clock: Instant)
    ensures Valid(ResetFailureCounter(b), clock)
  {
  }

  /** Starting closed, `MaxConsecutiveFailures` recorded failures open the
      breaker for a full cool-down after the last of them, and not before. */
  lemma {:induction false} FailuresOpenBreaker(t1: Instant, t2: Instant, t3: Instant, now: Instant)
    requires t3 <= now
    ensures var b := RecordFailure(RecordFailure(RecordFailure(Closed, t1), t2), t3);
      (IsOpenAt(b, now) <==> now - t3 < CircuitBreakerTimeout)
      && (!IsOpenAt(RecordFailure(RecordFailure(Closed, t1), t2), now))
  {
  }
}
