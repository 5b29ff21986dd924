/**
 What `ProcessPayment` promises along each of its paths, the invariants a
 call keeps, and the behaviour of the scenarios the repository's tests
 exercise.
 */
module PaymentProperties {
  import opened Options
  import opened PaymentModels
  import opened CircuitBreaker
  import opened Gateway
  import opened Retry
  import opened Ledger
  import opened PaymentProcessor

  /** The message of a declined payment never reads like any other message. */
  lemma DeclinedMessageIsDistinct(response: GatewayResponse)
    ensures DeclinedMessage(response) !in
      {AccountNotFound, ServiceUnavailable, GatewayCommunicationFailed, AmountMustBeNonNegative,
       InsufficientFunds, InternalServiceError}
  {
    var m := DeclinedMessage(response);
    assert m[0] == 'G' && m[8] == 'f';
    assert GatewayCommunicationFailed[8] == 'c';
  }

  /** An unknown account fails with "Account not found" before any gateway
      attempt, whatever the breaker says, and the call changes no state. */
  lemma UnknownAccountChangesNothing(s: Service, accountId: AccountId, amount: Money, now: Instant,
                                     failedAt: Instant, gateway: seq<RawAttempt>, fault: Fault)
    requires accountId !in s.accounts
    ensures ProcessPayment(s, accountId, amount, now, failedAt, gateway, fault) == Processed(Failed(AccountNotFound), s, 0, 0)
  {
  }

  /** For a known account, the call is refused with "Service temporarily
      unavailable" exactly when the breaker is open at `now`; a refused call
      makes no attempt and changes neither the ledger nor the breaker. */
  lemma RefusedExactlyWhileOpen(s: Service, accountId: AccountId, amount: Money, now: Instant,
                                failedAt: Instant, gateway: seq<RawAttempt>, fault: Fault)
    requires accountId in s.accounts
    ensures var p := ProcessPayment(s, accountId, amount, now, failedAt, gateway, fault);
      && (p.result == Failed(ServiceUnavailable) <==> IsOpenAt(s.breaker, now))
      && (IsOpenAt(s.breaker, now) ==> p.service == s && p.attempts == 0)
  {
    var p := ProcessPayment(s, accountId, amount, now, failedAt, gateway, fault);
    var run := SendPaymentRequestWithRetry(IsCircuitBreakerOpen(s.breaker, now).breaker, gateway, failedAt);
    if run.response.Some? {
      DeclinedMessageIsDistinct(run.response.value);
    }
  }

  /** Once the cool-down has elapsed (the boundary counts as elapsed), a call
      for a known account against a tripped breaker behaves exactly as the
      same call against a closed one: admission forgets the failures and lets
      it through. (A fault in that reset is the one difference; see
      `FaultRecordsOneFailure`.) */
  lemma ExpiredBreakerActsClosed(s: Service, accountId: AccountId, amount: Money, now: Instant,
                                 failedAt: Instant, gateway: seq<RawAttempt>, fault: Fault)
    requires accountId in s.accounts
    requires s.breaker.consecutiveFailures >= MaxConsecutiveFailures
    requires now - s.breaker.lastFailureTime >= CircuitBreakerTimeout
    ensures fault != FaultAtReset ==>
      ProcessPayment(s, accountId, amount, now, failedAt, gateway, fault)
        == ProcessPayment(s.(breaker := Closed), accountId, amount, now, failedAt, gateway, fault)
  {
  }

  /** An admitted call makes exactly as many attempts as it takes to reach the
      first conclusive answer, and that answer resets the breaker, whichever
      way its flag points (a fault after the debit then records one failure
      on the reset breaker). */
  lemma ConclusiveCallResetsBreaker(s: Service, accountId: AccountId, amount: Money, now: Instant,
                                    failedAt: Instant, gateway: seq<RawAttempt>, fault: Fault, i: nat)
    requires accountId in s.accounts && !IsOpenAt(s.breaker, now) && (fault != FaultAtReset || s.breaker.consecutiveFailures < MaxConsecutiveFailures)
    requires FirstConclusive(gateway, i)
    ensures var p := ProcessPayment(s, accountId, amount, now, failedAt, gateway, fault);
      && p.attempts == i + 1
      && (p.service.breaker == Closed || p.service.breaker == RecordFailure(Closed, failedAt))
      && (fault == NoFault ==> p.service.breaker == Closed)
  {
  }

  /** When no attempt within the limit is conclusive, an admitted call makes
      every attempt, records exactly one breaker failure stamped `failedAt`,
      fails with "Gateway communication failed" and leaves the ledger alone. */
  lemma ExhaustedCallRecordsOneFailure(s: Service, accountId: AccountId, amount: Money, now: Instant,
                                       failedAt: Instant, gateway: seq<RawAttempt>, fault: Fault)
    requires accountId in s.accounts && !IsOpenAt(s.breaker, now) && (fault != FaultAtReset || s.breaker.consecutiveFailures < MaxConsecutiveFailures)
    requires AllTransient(gateway)
    ensures var p := ProcessPayment(s, accountId, amount, now, failedAt, gateway, fault);
      && p.result == Failed(GatewayCommunicationFailed)
      && p.attempts == MaxRetries
      && p.service.accounts == s.accounts
      && p.service.breaker == RecordFailure(IsCircuitBreakerOpen(s.breaker, now).breaker, failedAt)
      && (s.breaker.consecutiveFailures < MaxConsecutiveFailures ==> p.service.breaker == RecordFailure(s.breaker, failedAt))
  {
  }

  /** A conclusive answer that declines fails with "Gateway failure: " and the
      gateway's message, debits nothing, and still resets the breaker. */
  lemma DeclinedCallDebitsNothing(s: Service, accountId: AccountId, amount: Money, now: Instant,
                                  failedAt: Instant, gateway: seq<RawAttempt>, fault: Fault, i: nat)
    requires accountId in s.accounts && !IsOpenAt(s.breaker, now) && (fault != FaultAtReset || s.breaker.consecutiveFailures < MaxConsecutiveFailures)
    requires FirstConclusive(gateway, i) && !OutcomeAt(gateway, i).response.success
    ensures var p := ProcessPayment(s, accountId, amount, now, failedAt, gateway, fault);
      && p.result == Failed(GatewayFailurePrefix + OutcomeAt(gateway, i).response.message.GetOr(""))
      && p.service == s.(breaker := Closed)
      && p.attempts == i + 1
  {
  }

  /** After the gateway accepts, the ledger decides: a negative amount and an
      amount above the balance fail with their messages and leave the ledger
      alone; otherwise the account drops by exactly `amount`, no other account
      moves, and the new balance is what the call reports. */
  lemma AcceptedCallAppliesDebit(s: Service, accountId: AccountId, amount: Money, now: Instant,
                                 failedAt: Instant, gateway: seq<RawAttempt>, i: nat)
    requires accountId in s.accounts && !IsOpenAt(s.breaker, now)
    requires FirstConclusive(gateway, i) && OutcomeAt(gateway, i).response.success
    ensures var p := ProcessPayment(s, accountId, amount, now, failedAt, gateway, NoFault);
      var balance := s.accounts[accountId];
      && p.service.breaker == Closed
      && (amount < 0 ==> p.result == Failed(AmountMustBeNonNegative) && p.service.accounts == s.accounts)
      && (0 <= amount && balance < amount ==> p.result == Failed(InsufficientFunds) && p.service.accounts == s.accounts)
      && (0 <= amount <= balance ==>
            && p.result == Success(balance - amount)
            && p.service.accounts == s.accounts[accountId := balance - amount])
  {
  }

  /** The catch-all: a fault in the reset of an expired breaker fails the call
      with "Internal service error" before any attempt and records one failure
      on the reset breaker without touching the ledger; a breaker below the
      threshold is not reset, so there the fault changes nothing. A fault after
      the debit reports the same error although the debit has been applied,
      and records one failure on the breaker the accepted answer reset. */
  lemma FaultRecordsOneFailure(s: Service, accountId: AccountId, amount: Money, now: Instant,
                               failedAt: Instant, gateway: seq<RawAttempt>, i: nat)
    requires accountId in s.accounts && !IsOpenAt(s.breaker, now)
    ensures s.breaker.consecutiveFailures >= MaxConsecutiveFailures ==>
      var p := ProcessPayment(s, accountId, amount, now, failedAt, gateway, FaultAtReset);
      && p.result == Failed(InternalServiceError)
      && p.service.accounts == s.accounts
      && p.attempts == 0
      && p.service.breaker == RecordFailure(Closed, failedAt)
    ensures s.breaker.consecutiveFailures < MaxConsecutiveFailures ==>
      ProcessPayment(s, accountId, amount, now, failedAt, gateway, FaultAtReset)
        == ProcessPayment(s, accountId, amount, now, failedAt, gateway, NoFault)
    ensures FirstConclusive(gateway, i) && OutcomeAt(gateway, i).response.success && 0 <= amount <= s.accounts[accountId] ==>
      var p := ProcessPayment(s, accountId, amount, now, failedAt, gateway, FaultAfterDebit);
      && p.result == Failed(InternalServiceError)
      && p.service.accounts == s.accounts[accountId := s.accounts[accountId] - amount]
      && p.service.breaker == RecordFailure(Closed, failedAt)
  {
  }

  /** A call keeps the service invariants: no balance becomes negative, and
      the breaker stays valid when the clock does not run backwards within or
      before the call and the reading a failure is stamped with is a real one. */
  lemma ProcessKeepsInvariants(s: Service, accountId: AccountId, amount: Money, now: Instant,
                               failedAt: Instant, gateway: seq<RawAttempt>, fault: Fault)
    requires NonNegative(s.accounts)
    ensures var p := ProcessPayment(s, accountId, amount, now, failedAt, gateway, fault);
      NonNegative(p.service.accounts)
    ensures var p := ProcessPayment(s, accountId, amount, now, failedAt, gateway, fault);
      Valid(s.breaker, now) && now <= failedAt && MinValue < failedAt ==> Valid(p.service.breaker, failedAt)
  {
  }

  /** Three calls in a row that exhaust their attempts, against a closed
      breaker, each fail with "Gateway communication failed"; a fourth call
      less than the cool-down after the third failure is refused without an
      attempt. */
  lemma {:induction false} ThreeExhaustedCallsOpenBreaker(
    s: Service, accountId: AccountId, amount: Money, gateway: seq<RawAttempt>,
    now1: Instant, at1: Instant, now2: Instant, at2: Instant, now3: Instant, at3: Instant, now4: Instant)
    requires accountId in s.accounts && s.breaker.consecutiveFailures == 0
    requires AllTransient(gateway)
    requires now4 - at3 < CircuitBreakerTimeout
    ensures var p1 := ProcessPayment(s, accountId, amount, now1, at1, gateway, NoFault);
      var p2 := ProcessPayment(p1.service, accountId, amount, now2, at2, gateway, NoFault);
      var p3 := ProcessPayment(p2.service, accountId, amount, now3, at3, gateway, NoFault);
      var p4 := ProcessPayment(p3.service, accountId, amount, now4, now4, gateway, NoFault);
      && p1.result == Failed(GatewayCommunicationFailed)
      && p2.result == Failed(GatewayCommunicationFailed)
      && p3.result == Failed(GatewayCommunicationFailed)
      && p4.result == Failed(ServiceUnavailable)
      && p4.attempts == 0
      && p4.service == p3.service
      && p3.service.accounts == s.accounts
  {
  }

  /** A script with no more entries than attempts-to-spare answers every
      missing attempt with an exception, so the empty script exhausts the loop. */
  lemma EmptyScriptIsAllTransient()
    ensures AllTransient([])
  {
  }

  /** The amount and funds checks run only after the gateway has accepted the
      payment. With no gateway answer, a negative amount and an overdraft both
      fail with "Gateway communication failed" after every attempt, and each
      counts as one breaker failure stamped `failedAt`. */
  lemma AmountChecksWaitForGateway(s: Service, accountId: AccountId, amount: Money, now: Instant, failedAt: Instant)
    requires accountId in s.accounts && !IsOpenAt(s.breaker, now)
    requires amount < 0 || s.accounts[accountId] < amount
    ensures var p := ProcessPayment(s, accountId, amount, now, failedAt, [], NoFault);
      && p.result == Failed(GatewayCommunicationFailed)
      && p.result != Failed(AmountMustBeNonNegative)
      && p.result != Failed(InsufficientFunds)
      && p.attempts == MaxRetries
      && p.service.breaker == RecordFailure(IsCircuitBreakerOpen(s.breaker, now).breaker, failedAt)
  {
    EmptyScriptIsAllTransient();
    ExhaustedCallRecordsOneFailure(s, accountId, amount, now, failedAt, [], NoFault);
  }

  // ---------------------------------------------------------------------
  // The scenarios of the service's tests, against a freshly built service.

  /** The JSON text of a gateway answer. */
  function AnswerBody(success: bool, message: string): string {
    "{\"Success\":" + (if success then "true" else "false") + ",\"Message\":\"" + message + "\"}"
  }

  /** A 200 response carrying the given gateway answer, as text and as the
      object it deserializes to. */
  function Answer(success: bool, message: string): RawAttempt {
    Responded(200, AnswerBody(success, message), Object(GatewayResponse(success, Some(message))))
  }

  /** An answer's text starts with a brace, so it is never blank. */
  lemma AnswerBodyIsNotBlank(success: bool, message: string)
    ensures !IsNullOrWhiteSpace(AnswerBody(success, message))
  {
    assert AnswerBody(success, message)[0] == '{';
  }

  /** Unknown account 999 is refused with "Account not found". */
  lemma UnknownAccountScenario(now: Instant, failedAt: Instant)
    ensures ProcessPayment(Fresh, 999, 100, now, failedAt, [], NoFault).result == Failed(AccountNotFound)
  {
  }

  /** Paying 100 from account 1 (5000) with an accepting gateway leaves 4900. */
  lemma AcceptedPaymentScenario(now: Instant, failedAt: Instant)
    ensures ProcessPayment(Fresh, 1, 100, now, failedAt, [Answer(true, "OK")], NoFault).result == Success(4900)
  {
  }

  /** A gateway that declines with "Payment declined" makes the call fail
      with "Gateway failure: Payment declined". */
  lemma DeclinedPaymentScenario(now: Instant, failedAt: Instant)
    ensures ProcessPayment(Fresh, 1, 100, now, failedAt, [Answer(false, "Payment declined")], NoFault).result
         == Failed("Gateway failure: Payment declined")
  {
    AnswerBodyIsNotBlank(false, "Payment declined");
    var declining := [Answer(false, "Payment declined")];
    assert OutcomeAt(declining, 0) == Conclusive(GatewayResponse(false, Some("Payment declined")));
    DeclinedCallDebitsNothing(Fresh, 1, 100, now, failedAt, declining, NoFault, 0);
    assert GatewayFailurePrefix + "Payment declined" == "Gateway failure: Payment declined";
  }

  /** An empty body, malformed JSON, a timeout or a transport error on the
      first attempt followed by an accepting answer: the call succeeds after
      exactly two attempts. */
  lemma RetryScenarios(now: Instant, failedAt: Instant, first: RawAttempt)
    requires first in {Responded(200, "", JsonException), Responded(200, "{ invalid json }", JsonException),
                       Threw(TaskCanceledException), Threw(HttpRequestException)}
    ensures var p := ProcessPayment(Fresh, 1, 100, now, failedAt, [first, Answer(true, "OK")], NoFault);
      p.result == Success(4900) && p.attempts == 2
  {
    var gateway := [first, Answer(true, "OK")];
    AnswerBodyIsNotBlank(true, "OK");
    assert OutcomeAt(gateway, 0).Transient?;
    assert FirstConclusive(gateway, 1);
    AcceptedCallAppliesDebit(Fresh, 1, 100, now, failedAt, gateway, 1);
  }

  /** Account 2 holds 0 and nothing answers the gateway: the repository's
      test expects "Insufficient funds" and, for account 1 with -50, "Amount
      must be non-negative"; the code reports a gateway failure in both. */
  lemma UnstubbedGatewayScenarios(now: Instant, failedAt: Instant)
    ensures ProcessPayment(Fresh, 2, 100, now, failedAt, [], NoFault).result == Failed(GatewayCommunicationFailed)
    ensures ProcessPayment(Fresh, 1, -50, now, failedAt, [], NoFault).result == Failed(GatewayCommunicationFailed)
  {
    AmountChecksWaitForGateway(Fresh, 2, 100, now, failedAt);
    AmountChecksWaitForGateway(Fresh, 1, -50, now, failedAt);
  }
}
