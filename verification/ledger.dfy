/**
 The in-memory account ledger: a map from account id to balance, seeded at
 construction, changed only by the debit the processor applies after the
 gateway accepted a payment (`UpdateAccountBalance`).
 */
module Ledger {
  import opened PaymentModels

  type AccountId = int

  type Accounts = map<AccountId, Money>

  /** The accounts the service is constructed with. */
  const Seed: Accounts := map[1 := 5000, 2 := 0]

  /** A debit's result and the ledger it leaves. */
  datatype Debit = Debit(result: PaymentResult, accounts: Accounts)

  /** Every balance is non-negative. */
  predicate NonNegative(accounts: Accounts) {
    forall id :: id in accounts ==> accounts[id] >= 0
  }

  /** `UpdateAccountBalance`: refuses a negative amount, then an amount above
      the balance; otherwise lowers the account's balance by exactly `amount`
      and reports the new balance. The account is one the caller found in the
      ledger. */
  function UpdateAccountBalance(accounts: Accounts, id: AccountId, amount: Money): (d: Debit)
    requires id in accounts
    ensures d.accounts.Keys == accounts.Keys
    ensures forall other :: other in accounts && other != id ==> d.accounts[other] == accounts[other]
    ensures d.result.isSuccess <==> 0 <= amount <= accounts[id]
    ensures d.result.isSuccess ==> d.accounts[id] + amount == accounts[id] && d.result == Success(d.accounts[id])
    ensures amount < 0 ==> d.result == Failed(AmountMustBeNonNegative) && d.accounts == accounts
    ensures 0 <= amount && accounts[id] < amount ==> d.result == Failed(InsufficientFunds) && d.accounts == accounts
    ensures 0 <= d.accounts[id] <= accounts[id] || d.accounts == accounts
  {
    if amount < 0 then
      Debit(Failed(AmountMustBeNonNegative), accounts)
    else if accounts[id] < amount then
      Debit(Failed(InsufficientFunds), accounts)
    else
      var updated := accounts[id := accounts[id] - amount];
      Debit(Success(updated[id]), updated)
  }

  /** A debit never drives a ledger with no negative balance into one. */
  lemma DebitKeepsNonNegative(accounts: Accounts, id: AccountId, amount: Money)
    requires id in accounts && NonNegative(accounts)
    ensures NonNegative(UpdateAccountBalance(accounts, id, amount).accounts)
  {
  }

  /** A successful debit can be undone: adding the amount back to the reported
      balance restores the ledger it started from. */
  lemma DebitRoundTrip(accounts: Accounts, id: AccountId, amount: Money)
    requires id in accounts
    requires UpdateAccountBalance(accounts, id, amount).result.isSuccess
    ensures var d := UpdateAccountBalance(accounts, id, amount);
      d.accounts[id := d.result.newBalance.value + amount] == accounts
  {
  }
}
