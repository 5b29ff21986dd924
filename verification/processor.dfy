/**
 `ProcessPaymentAsync`: the processor that ties the ledger, the breaker and
 the retry loop together and turns every path into a flat `PaymentResult`.
 The service state (ledger and breaker) is a value passed in and handed back,
 so a run of calls is a run of function applications on one shared state.
 */
module PaymentProcessor {
  import opened Options
  import opened PaymentModels
  import opened CircuitBreaker
  import opened Gateway
  import opened Retry
  import opened Ledger

  /** The state one service instance carries between calls. */
  datatype Service = Service(accounts: Accounts, breaker: Breaker)

  /** A newly constructed service: the seeded ledger and a closed breaker. */
  const Fresh: Service := Service(Seed, Closed)

  /** An exception escaping into the catch-all around the whole call, from
      logging code outside the model. `FaultAtReset` fires in the debug log of
      the reset that admitting an expired breaker performs, after the counter
      is cleared; that is the only point between admission and the first
      attempt that can throw, so on any other admission it is never reached.
      `FaultAfterDebit` fires after the ledger has been debited, before the
      result is returned. A fault at a point the call never reaches has no
      effect. */
  datatype Fault = NoFault | FaultAtReset | FaultAfterDebit

  /** One call's result, the state it leaves, the gateway attempts it made
      and the total backoff it waited. */
  datatype Processed = Processed(result: PaymentResult, service: Service, attempts: nat, waited: nat)

  /** The result for a conclusive response whose flag says declined. */
  function DeclinedMessage(response: GatewayResponse): string {
    GatewayFailurePrefix + response.message.GetOr("")
  }

  /** `ProcessPaymentAsync(accountId, amount)` at clock reading `now`, against a
      gateway that answers the call's attempts as `gateway` says; `failedAt` is
      the clock reading any failure this call records is stamped with. */
  function ProcessPayment(s: Service, accountId: AccountId, amount: Money, now: Instant, failedAt: Instant,
                          gateway: seq<RawAttempt>, fault: Fault): (p: Processed)
    ensures WellFormed(p.result)
    ensures p.attempts <= MaxRetries
    ensures p.service.accounts.Keys == s.accounts.Keys
    ensures p.result.isSuccess ==> accountId in s.accounts && p.result.newBalance == Some(p.service.accounts[accountId])
    ensures p.attempts == 0 ==> p.service.accounts == s.accounts
  {
    if accountId !in s.accounts then
      Processed(Failed(AccountNotFound), s, 0, 0)
    else
      var admission := IsCircuitBreakerOpen(s.breaker, now);
      if admission.open then
        Processed(Failed(ServiceUnavailable), s, 0, 0)
      else if fault == FaultAtReset && s.breaker.consecutiveFailures >= MaxConsecutiveFailures then
        Processed(Failed(InternalServiceError), s.(breaker := RecordFailure(admission.breaker, failedAt)), 0, 0)
      else
        var run := SendPaymentRequestWithRetry(admission.breaker, gateway, failedAt);
        var afterGateway := s.(breaker := run.breaker);
        match run.response
        case None =>
          Processed(Failed(GatewayCommunicationFailed), afterGateway, run.attempts, run.waited)
        case Some(response) =>
          if !response.success then
            Processed(Failed(DeclinedMessage(response)), afterGateway, run.attempts, run.waited)
          else
            var debit := UpdateAccountBalance(s.accounts, accountId, amount);
            if !debit.result.isSuccess then
              Processed(debit.result, afterGateway, run.attempts, run.waited)
            else if fault == FaultAfterDebit then
              Processed(Failed(InternalServiceError), Service(debit.accounts, RecordFailure(run.breaker, failedAt)),
                        run.attempts, run.waited)
            else
              Processed(Success(debit.accounts[accountId]), afterGateway.(accounts := debit.accounts),
                        run.attempts, run.waited)
  }
}
