/** The account the "existing bank account" step definition obtains from the builder, as written
    and as evidently intended. */
module AccountSteps {
  import opened Wrappers
  import opened Bank
  import opened Builder

  /** anAccount().withBalance(amountOf(0)).build(): no clock is ever set, so build fails. */
  method ExistingAccountAsWritten() returns (r: Result<Account, BuildError>)
    ensures r == Failure(IllegalState(CLOCK_MISSING))
  {
    var builder := AccountBuilder.AnAccount();
    builder := builder.WithBalance(AmountOf(0));
    r := builder.Build();
  }

  /** The same chain with a clock supplied builds an account with balance 0 and no history. */
  method ExistingAccount(clock: Clock) returns (r: Result<Account, BuildError>)
    ensures r.Success? && fresh(r.value) && r.value.Valid()
    ensures r.value.balance == ZERO && r.value.clock == clock && r.value.history == []
  {
    var builder := AccountBuilder.AnAccount();
    builder := builder.WithBalance(AmountOf(0));
    builder := builder.WithClock(Some(clock));
    r := builder.Build();
  }

  /** The chain of the step, replayed on the builder's state: it leaves the clock unset. */
  lemma ExistingAccountChainHasNoClock()
    ensures Run([SetBalance(AmountOf(0))]) == Pending(ZERO, None)
  {
  }
}
