/**
 One service instance serving a run of payment calls, one after another, on
 its shared ledger and breaker. `Run` is the reference: the results and the
 state of the calls, applied in order. `ProcessAll` runs the same calls in a loop and
 carries the service invariants from call to call.
 */
module ServiceRun {
  import opened PaymentModels
  import opened CircuitBreaker
  import opened Gateway
  import opened Ledger
  import opened PaymentProcessor
  import opened PaymentProperties

  /** One call with everything the outside world decides about it: its
      arguments, its clock readings, the gateway's answers and any fault. */
  datatype Call = Call(accountId: AccountId, amount: Money, now: Instant, failedAt: Instant,
                       gateway: seq<RawAttempt>, fault: Fault)

  function Apply(s: Service, c: Call): Processed {
    ProcessPayment(s, c.accountId, c.amount, c.now, c.failedAt, c.gateway, c.fault)
  }

  /** The results of a run of calls and the state it leaves. */
  datatype RunOut = RunOut(results: seq<PaymentResult>, final: Service)

  /** The reference run: `calls` applied in order to `s`, each call seeing
      the state the earlier calls left. */
  function Run(s: Service, calls: seq<Call>): (out: RunOut)
    ensures |out.results| == |calls|
    decreases |calls|
  {
    if |calls| == 0 then RunOut([], s)
    else
      var before := Run(s, calls[..|calls| - 1]);
      var p := Apply(before.final, calls[|calls| - 1]);
      RunOut(before.results + [p.result], p.service)
  }

  /** Running one more call applies it to the state the earlier ones left. */
  lemma RunStep(s: Service, calls: seq<Call>, i: nat)
    requires i < |calls|
    ensures var before := Run(s, calls[..i]);
      var p := Apply(before.final, calls[i]);
      Run(s, calls[..i + 1]) == RunOut(before.results + [p.result], p.service)
  {
    assert calls[..i + 1][..i] == calls[..i];
  }

  /** The clock is a real reading (later than the `DateTime.MinValue`
      sentinel) and never runs backwards: from `clock` to the first call,
      within each call, and from each call to the next. */
  predicate ClockOrdered(clock: Instant, calls: seq<Call>) {
    && MinValue < clock
    && (|calls| > 0 ==> clock <= calls[0].now)
    && (forall i :: 0 <= i < |calls| ==> calls[i].now <= calls[i].failedAt)
    && (forall i :: 0 < i < |calls| ==> calls[i - 1].failedAt <= calls[i].now)
  }

  /** The last clock reading of a run. */
  function LastClock(clock: Instant, calls: seq<Call>): Instant {
    if |calls| == 0 then clock else calls[|calls| - 1].failedAt
  }

  /** Runs `calls` in order on one service. Each result is the one its call
      gets from the state the earlier calls left; every result is well
      formed; the set of accounts never changes; no balance goes negative;
      and, for a real clock that never runs backwards, the breaker stays valid. */
  method ProcessAll(s: Service, clock: Instant, calls: seq<Call>) returns (results: seq<PaymentResult>, final: Service)
    requires NonNegative(s.accounts)
    ensures RunOut(results, final) == Run(s, calls)
    ensures forall i :: 0 <= i < |results| ==> WellFormed(results[i])
    ensures final.accounts.Keys == s.accounts.Keys
    ensures NonNegative(final.accounts)
    ensures Valid(s.breaker, clock) && ClockOrdered(clock, calls) ==> Valid(final.breaker, LastClock(clock, calls))
  {
    var ordered := Valid(s.breaker, clock) && ClockOrdered(clock, calls);
    results := [];
    final := s;
    var t: Instant := clock;
    var i := 0;
    while i < |calls|
      invariant 0 <= i <= |calls|
      invariant RunOut(results, final) == Run(s, calls[..i])
      invariant forall j :: 0 <= j < |results| ==> WellFormed(results[j])
      invariant final.accounts.Keys == s.accounts.Keys
      invariant NonNegative(final.accounts)
      invariant t == LastClock(clock, calls[..i])
      invariant ordered ==> Valid(final.breaker, t) && clock <= t && (i < |calls| ==> t <= calls[i].now)
    {
      var c := calls[i];
      if ordered {
        ValidLater(final.breaker, t, c.now);
      }
      ProcessKeepsInvariants(final, c.accountId, c.amount, c.now, c.failedAt, c.gateway, c.fault);
      var p := Apply(final, c);
      RunStep(s, calls, i);
      results := results + [p.result];
      final := p.service;
      t := c.failedAt;
      i := i + 1;
    }
    assert calls[..i] == calls;
  }
}
