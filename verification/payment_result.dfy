/**
 Values shared by the payment processor's components: an optional value (for the
 nullable fields of the C# records) and the flat `PaymentResult` every call returns.
 */
module Options {

  /** A value that may be absent; stands for a C# `null`able field. */
  datatype Option<+T> = None | Some(value: T) {

    /** The value, or `default` when absent. */
    function GetOr(default: T): T {
      match this
      case Some(v) => v
      case None => default
    }
  }
}

module PaymentModels {
  import opened Options

  /** Account balances and payment amounts. The source uses `decimal`; only
      comparison and subtraction are applied to them, so an integer (a count
      of minor units) keeps every decision the code makes. */
  type Money = int

  /** The result record handed back to callers: a success flag, an optional
      error message and an optional new balance. */
  datatype PaymentResult = PaymentResult(isSuccess: bool, errorMessage: Option<string>, newBalance: Option<Money>)

  /** The shape `PaymentResult.Success` builds: success, a balance, no message. */
  predicate IsSuccessShape(r: PaymentResult) {
    r.isSuccess && r.newBalance.Some? && r.errorMessage.None?
  }

  /** The shape `PaymentResult.Failed` builds: failure, a message, no balance. */
  predicate IsFailedShape(r: PaymentResult) {
    !r.isSuccess && r.newBalance.None? && r.errorMessage.Some?
  }

  /** A result is well formed when it has exactly one of the two shapes. */
  predicate WellFormed(r: PaymentResult) {
    IsSuccessShape(r) || IsFailedShape(r)
  }

  /** `PaymentResult.Success(newBalance)`. */
  function Success(newBalance: Money): (r: PaymentResult)
    ensures IsSuccessShape(r) && !IsFailedShape(r)
    ensures r.newBalance == Some(newBalance)
  {
    PaymentResult(true, None, Some(newBalance))
  }

  /** `PaymentResult.Failed(errorMessage)`. */
  function Failed(errorMessage: string): (r: PaymentResult)
    ensures IsFailedShape(r) && !IsSuccessShape(r)
    ensures r.errorMessage == Some(errorMessage)
  {
    PaymentResult(false, Some(errorMessage), None)
  }

  /** Every well-formed result is one the two factories build, and it is
      built by exactly one of them. */
  lemma WellFormedIsFactoryBuilt(r: PaymentResult)
    requires WellFormed(r)
    ensures r.isSuccess ==> r == Success(r.newBalance.value)
    ensures !r.isSuccess ==> r == Failed(r.errorMessage.value)
    ensures forall b: Money, m: string :: Success(b) != Failed(m)
  {
  }

  // The messages the processor reports, verbatim.
  const AccountNotFound: string := "Account not found"
  const ServiceUnavailable: string := "Service temporarily unavailable"
  const GatewayCommunicationFailed: string := "Gateway communication failed"
  const GatewayFailurePrefix: string := "Gateway failure: "
  const AmountMustBeNonNegative: string := "Amount must be non-negative"
  const InsufficientFunds: string := "Insufficient funds"
  const InternalServiceError: string := "Internal service error"
}
