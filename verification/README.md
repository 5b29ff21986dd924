# Payment processor and order calculator, modelled in Dafny

This project models two pieces of the TestTasks repository.

**The payment processor** (`PaymentProcessingService` in `tasks/task-3.cs`) debits accounts held in an in-memory ledger. It only does so after an external payment gateway has accepted the payment. It guards the gateway with two mechanisms:

- **A circuit breaker.** It counts consecutive failures. After 3 of them it refuses calls for one minute, counted from the last failure. Once that minute has passed, the next admission check closes it again.
- **A bounded retry loop.** It makes at most 3 attempts per call. Each attempt is classified as transient (retried) or conclusive (ends the loop and resets the breaker). Running out of attempts records one breaker failure.

Every path ends in a flat `PaymentResult`.

**The order calculator** (`OrderService.CalculateOrder` in `tasks/task-1.cs`) does pure 32-bit integer arithmetic. It picks a discount from a threshold table and computes bonus points and the discounted total.

How the model is built:

- Everything is an immutable value, and every operation is a pure function.
- The service state `Service(accounts, breaker)` goes into a call and comes back out. The shared state of one service instance is therefore threaded from call to call (`ServiceRun`).
- The outside world is passed in as data:
  - the gateway's answers are a scripted `seq<RawAttempt>`;
  - the clock is explicit `Instant` readings (ticks since `DateTime.MinValue`);
  - exceptions from code the model does not contain are a `Fault` parameter.

Modules, in dependency order:

| file | module | models |
|---|---|---|
| payment_result.dfy | `Options`, `PaymentModels` | `PaymentResult`, its two factories, the result messages |
| circuit_breaker.dfy | `CircuitBreaker` | breaker state, `IsCircuitBreakerOpen`, `RecordFailure`, `ResetFailureCounter`, the breaker invariant |
| gateway.dfy | `Gateway` | one attempt's raw outcome and its classification, in the order the loop checks |
| retry.dfy | `Retry` | `SendPaymentRequestWithRetryAsync`: attempt limit, stopping rule, breaker updates, backoff |
| ledger.dfy | `Ledger` | the seeded account map and `UpdateAccountBalance` |
| processor.dfy | `PaymentProcessor` | `ProcessPaymentAsync` |
| processor_properties.dfy | `PaymentProperties` | what each path of a call promises; the repository's test scenarios |
| service_run.dfy | `ServiceRun` | a run of sequential calls on one service instance |
| order_service.dfy | `OrderService` | `CalculateOrder`, including int32 wrap-around and truncating division |

### Where the code and its tests or comments disagree (the model follows the code)

- **Amount and funds checks run after the gateway.** The negative-amount and insufficient-funds checks happen inside `UpdateAccountBalance`, which runs only after the gateway has accepted (tasks/task-3.cs:110-127, 273-285). The tests at results/task-3/PaymentProcessingServiceTests.cs:48-75 expect "Amount must be non-negative" and "Insufficient funds" without stubbing the gateway. In the code, an unstubbed gateway produces three transient attempts, so both calls end with "Gateway communication failed" and record a breaker failure. This is proved in `PaymentProperties.AmountChecksWaitForGateway` and `PaymentProperties.UnstubbedGatewayScenarios`.
- **The backoff is linear.** The comment at tasks/task-3.cs:171 says "Exponential backoff", but the delay is `_retryDelay * attempt`. With 3 attempts, waits happen only after attempts 1 and 2. Those waits are 1 s and 2 s under either schedule, so the difference cannot be observed. This is proved in `Retry.LinearBackoffMeetsDoublingWithinLimit`.
- **A member with total 0.** The test at results/task-1/OrderServiceTests.cs:32 expects discount 0 for a member with total 0. The code gives every member at least 10, and internal/task-1.solution.cs:50 agrees with the code. This is proved in `OrderService.OrderScenarios`.

## Model

| member | source | states |
|---|---|---|
| PaymentModels.Success | tasks/task-3.cs:30-37 | a success result carries the new balance and no message, and is never failure-shaped |
| PaymentModels.Failed | tasks/task-3.cs:39-46 | a failed result carries the message and no balance, and is never success-shaped |
| PaymentModels.WellFormedIsFactoryBuilt | tasks/task-3.cs:24-46 | every well-formed result is what one of the two factories builds, and no success equals a failure |
| CircuitBreaker.RecordFailure | tasks/task-3.cs:311-316 | one more failure, stamped with the current clock reading |
| CircuitBreaker.ResetFailureCounter | tasks/task-3.cs:318-323 | count 0 and the `DateTime.MinValue` sentinel; the result is closed at every clock reading |
| CircuitBreaker.IsCircuitBreakerOpen | tasks/task-3.cs:291-309 | refuses iff failures ≥ 3 and less than one minute has elapsed (strict `<`); a refusal changes nothing; an expired open breaker is reset; a breaker below the threshold is untouched; whatever it admits has fewer than 3 failures |
| CircuitBreaker.AdmissionKeepsValid | tasks/task-3.cs:291-309 | admission keeps the invariant: count ≤ 3, count 0 iff the sentinel time (a positive count carries a real clock reading), and the failure time is not in the future |
| CircuitBreaker.RecordFailureKeepsValid | tasks/task-3.cs:311-316 | recording a failure below the threshold at a real clock reading keeps the invariant and leaves a positive count whose time is that reading |
| CircuitBreaker.ResetKeepsValid | tasks/task-3.cs:318-323 | a reset breaker satisfies the invariant at any clock reading |
| CircuitBreaker.FailuresOpenBreaker | tasks/task-3.cs:72-73 | from closed, three recorded failures open the breaker exactly while less than a minute has passed since the third; two do not |
| Gateway.IsNullOrWhiteSpace | tasks/task-3.cs:179 | a body is blank iff every character is .NET white space |
| Gateway.Classify | tasks/task-3.cs:161-267 | an attempt is conclusive iff it has a 2xx status, a non-blank body and a deserialized non-null object, and then it carries that object; otherwise it is transient with the cause: `HttpRequestException` → TransportError, `TaskCanceledException` → Timeout, any other exception → UnexpectedError, non-2xx → NonSuccessStatus, blank body → EmptyBody, `JsonException` → MalformedJson, null object → NullBody |
| Gateway.DeclineIsConclusive | tasks/task-3.cs:213-230 | a well-formed body with `Success = false` is conclusive, not retried |
| Gateway.BlankBodyIsNeverParsed | tasks/task-3.cs:178-191 | for a blank body the deserializer's verdict is irrelevant; the attempt is transient |
| Retry.BackoffDelay | tasks/task-3.cs:171 | the wait after a transient attempt is positive |
| Retry.SendWithRetryFrom | tasks/task-3.cs:142-268 | from attempt n on: stops at the first conclusive attempt and returns its response with a reset breaker; otherwise makes every remaining attempt and records one failure; waits the sum of the linear delays between the attempts made |
| Retry.SendPaymentRequestWithRetry | tasks/task-3.cs:140-271 | 1 to 3 attempts; a response means the last attempt was the first conclusive one and the breaker is closed; no response means all 3 attempts were transient and exactly one failure was recorded at `failedAt` |
| Retry.AttemptsStopAtFirstConclusive | tasks/task-3.cs:228-230 | the number of attempts is the index of the first conclusive outcome plus 1, and that outcome's response is returned |
| Retry.GivesUpIffAllTransient | tasks/task-3.cs:161-168 | the loop gives up iff all 3 attempts are transient; it then adds exactly one failure stamped `failedAt` |
| Retry.WaitedIsTriangular | tasks/task-3.cs:171 | the total wait is 0, 1 s or 3 s for 1, 2 or 3 attempts |
| Retry.LinearBackoffMeetsDoublingWithinLimit | tasks/task-3.cs:171 | the linear delays equal doubling delays for every attempt that waits, and differ only at attempt 3, which never waits |
| Ledger.UpdateAccountBalance | tasks/task-3.cs:273-289 | a negative amount, then an amount above the balance, fail with their messages and change nothing; otherwise only this account moves, down by exactly `amount`, and the new balance is reported; the key set never changes |
| Ledger.DebitKeepsNonNegative | tasks/task-3.cs:281-287 | a debit never makes a balance negative |
| Ledger.DebitRoundTrip | tasks/task-3.cs:287-288 | adding the amount back to the reported balance restores the original ledger |
| PaymentProcessor.ProcessPayment | tasks/task-3.cs:89-138 | every result is well formed; at most 3 attempts; the account set never changes; a success reports the account's new stored balance; a call with no attempt leaves the ledger alone |
| PaymentProperties.DeclinedMessageIsDistinct | tasks/task-3.cs:119 | a "Gateway failure: …" message never equals any other message the processor reports |
| PaymentProperties.UnknownAccountChangesNothing | tasks/task-3.cs:96-100 | an unknown account yields "Account not found" with no attempt and no state change |
| PaymentProperties.RefusedExactlyWhileOpen | tasks/task-3.cs:103-107 | for a known account, "Service temporarily unavailable" is returned iff the breaker is open; then there is no attempt and no change |
| PaymentProperties.ExpiredBreakerActsClosed | tasks/task-3.cs:302-306 | after the cool-down, a call against a tripped breaker equals the same call against a closed breaker, unless a fault escapes from the reset |
| PaymentProperties.ConclusiveCallResetsBreaker | tasks/task-3.cs:228-230 | an admitted call makes (first conclusive index + 1) attempts, and the breaker ends closed (or has one failure after a post-debit fault) |
| PaymentProperties.ExhaustedCallRecordsOneFailure | tasks/task-3.cs:111-114 | all-transient attempts give "Gateway communication failed", 3 attempts, an unchanged ledger and exactly one more failure |
| PaymentProperties.DeclinedCallDebitsNothing | tasks/task-3.cs:116-120 | a decline gives "Gateway failure: " + the gateway's message, does no debit, and resets the breaker |
| PaymentProperties.AcceptedCallAppliesDebit | tasks/task-3.cs:122-130 | after acceptance: a negative amount or insufficient funds fails with no change; otherwise the balance drops by exactly `amount`, it is returned, and no other account changes |
| PaymentProperties.FaultRecordsOneFailure | tasks/task-3.cs:103-137 | a fault escaping from the reset of an expired breaker (tasks/task-3.cs:322) gives "Internal service error" with no attempt and one failure on the reset breaker; below the threshold that point is never reached and the call is unchanged; a fault after the debit gives the same error, keeps the debit and records one failure |
| PaymentProperties.ProcessKeepsInvariants | tasks/task-3.cs:89-138 | a call keeps non-negative balances, and the breaker invariant whenever the clock is real and does not run backwards |
| PaymentProperties.ThreeExhaustedCallsOpenBreaker | results/task-3/PaymentProcessingServiceTests.cs:274-297 | three exhausted calls against a closed breaker fail with "Gateway communication failed"; a fourth within a minute is refused without an attempt or a change |
| PaymentProperties.EmptyScriptIsAllTransient | results/task-3/PaymentProcessingServiceTests.cs:62-75 | a gateway that never answers makes every attempt transient |
| PaymentProperties.AmountChecksWaitForGateway | tasks/task-3.cs:110-127 | with no gateway answer, a negative amount or an overdraft gets "Gateway communication failed" after 3 attempts, not the amount message, and records one breaker failure stamped `failedAt` |
| PaymentProperties.UnknownAccountScenario | results/task-3/PaymentProcessingServiceTests.cs:32-45 | account 999 of a new service is "Account not found" |
| PaymentProperties.AcceptedPaymentScenario | results/task-3/PaymentProcessingServiceTests.cs:77-93 | account 1 of a new service paying 100 to an accepting gateway ends at 4900 |
| PaymentProperties.DeclinedPaymentScenario | results/task-3/PaymentProcessingServiceTests.cs:239-254 | a gateway declining with "Payment declined" gives "Gateway failure: Payment declined" |
| PaymentProperties.RetryScenarios | results/task-3/PaymentProcessingServiceTests.cs:95-237 | an empty body, malformed JSON, a timeout or a transport error followed by an acceptance succeeds after exactly 2 attempts |
| PaymentProperties.UnstubbedGatewayScenarios | results/task-3/PaymentProcessingServiceTests.cs:47-75 | the two tests with no gateway stub get "Gateway communication failed" from the code |
| ServiceRun.ProcessAll | tasks/task-3.cs:63-87 | sequential calls on one instance: each result is the call's result from the state left by the earlier calls, every result is well formed, the account set is fixed, balances stay non-negative; for a real clock that never runs backwards the breaker also stays valid |
| OrderService.Wrap32 | tasks/task-1.cs:28 | unchecked int32 arithmetic: a value in int32 range congruent mod 2^32, the identity in range |
| OrderService.DivTrunc100 | tasks/task-1.cs:23 | C# `/ 100`: quotient truncated toward zero; the remainder has the dividend's sign and is smaller than the divisor |
| OrderService.Discount | tasks/task-1.cs:13-21 | 15 iff member and total > 1000; 10 iff member and total ≤ 1000; 5 iff non-member and total > 5000; 0 otherwise; always in {0, 5, 10, 15} |
| OrderService.BonusPoints | tasks/task-1.cs:23 | whole hundreds, doubled for members; no overflow; never more than the total allows |
| OrderService.FinalAmount32 | tasks/task-1.cs:28 | the as-written final amount is int32; it is exact and within [0, total] whenever the product fits |
| OrderService.CalculateOrder | tasks/task-1.cs:8-31 | rejects iff the total is negative, with ArgumentException("Amount must be non-negative", "totalAmount"); otherwise the discount from the table, the bonus points, and an exact final amount whenever the product fits int32 |
| OrderService.CalculateOrderExactBelowBound | tasks/task-1.cs:23-28 | for 0 ≤ total ≤ 21,474,836: the final amount is exact, and 0 ≤ final ≤ total and bonus ≥ 0 |
| OrderService.ItemsCountIsIgnored | tasks/task-1.cs:8 | `itemsCount` has no effect on any field of the result |
| OrderService.FinalAmountWrapsForLargeTotal | tasks/task-1.cs:28 | total 30,000,000 for a non-member gives final amount −14,449,672 |
| OrderService.SmallestOverflowingTotals | tasks/task-1.cs:28 | 25,264,514 (member) and 22,605,092 (non-member) are the first totals whose final amount wraps negative |
| OrderService.CalculateOrderWide | tasks/task-1.cs:8-31 | with a 64-bit product: exact final amount within [0, total] for every int32 total |
| OrderService.WideAgreesUnlessOverflow | tasks/task-1.cs:28 | the widened calculation equals the code wherever the code's product fits, and differs at the overflowing example |
| OrderService.OrderScenarios | results/task-1/OrderServiceTests.cs:31-164 | the tests' examples as the code computes them (member, total 0 → discount 10; 1001 → 850; 5001 → 4750; −100 → ArgumentException) |

## Left out

- Logging: every `_logger` call is dropped. Exceptions it could raise are covered only at the two points `Fault` names.
- HTTP and JSON: serializing the request, `PostAsync`, `ReadAsStringAsync` and `JsonSerializer.Deserialize` are library code. Their observable results are given as data in `RawAttempt`: the status code, the body text, the deserializer's verdict, or the exception thrown. An exception from `Deserialize` other than `JsonException` is written in the script as `Threw(OtherException)`.
- A script shorter than 3 attempts: each missing answer is treated as `Threw(OtherException)`. That is what an unstubbed message handler makes the HTTP client throw.
- Waiting: the `Task.Delay` waits (tasks/task-3.cs:171, 189, 209, 224, 242, 254) are computed as `waited` but never slept. The 30-second `CancellationTokenSource` (tasks/task-3.cs:154) is not modelled; a timeout arrives as a `TaskCanceledException` attempt, which is retried like any transient failure (tasks/task-3.cs:244-255), as the timeout test at results/task-3/PaymentProcessingServiceTests.cs:171-203 expects.
- Clock: `DateTime.UtcNow` is two explicit readings per call. `now` is used by the admission check. `failedAt` stamps any failure the call records, whether from the retry loop or the catch-all.
- Concurrency: the source has no locks. Calls are modelled as sequential applications to one shared state, and races between concurrent callers are not modelled.
- `decimal`: balances and amounts are integers. Only comparison and subtraction are applied to them. Decimal rounding beyond 28 significant digits is not modelled.
- PaymentProperties.FaultRecordsOneFailure: only two escape points are modelled: the debug log after an expired breaker is reset (tasks/task-3.cs:322), and after the debit. Not modelled: a throw from the log before that reset (tasks/task-3.cs:304), which would record a fourth failure on the unreset breaker; exceptions escaping from the retry loop's handlers after some attempts (their delays at tasks/task-3.cs:242, 254, 266); and exceptions before the `try` (tasks/task-3.cs:91), which reach the caller uncaught.
- `ArgumentException.Message`: the runtime appends the parameter name to this text. The model keeps the constructor's two arguments instead.
- `NotificationService` (tasks/task-2.cs): it only wraps three third-party senders and has no logic of its own.
- The `ShippingServiceTests` fragment (tasks/task-1.cs:34-53): it uses a `ShippingService` that is not part of this model.

## Findings

| source | as written | input that shows it | evidently intended | confidence | as-written member | corrected member |
|---|---|---|---|---|---|---|
| tasks/task-1.cs:28 | `totalAmount * (100 - discount)` is computed in unchecked 32-bit `int` and wraps | `CalculateOrder(30000000, false, 1)` gives FinalAmount −14,449,672 | the discounted total, 0 ≤ FinalAmount ≤ totalAmount, for every non-negative total | likely; not executed (a project built with overflow checking would throw instead) | OrderService.FinalAmountWrapsForLargeTotal | OrderService.CalculateOrderWide |
