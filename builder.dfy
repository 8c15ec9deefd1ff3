/** AccountBuilder: a fluent helper that collects a pending balance (ZERO unless set) and a clock
    (unset unless set), and builds an account only once a clock has been supplied. */
module Builder {
  import opened Wrappers
  import opened Bank

  const CLOCK_MISSING: string := "Clock must be provided to build an Account."

  /** The exception build() throws; the message is the one the builder uses. */
  datatype BuildError = IllegalState(message: string)

  /** What a builder holds between calls: the pending balance and the clock, if any. */
  datatype Pending = Pending(balance: Money, clock: Option<Clock>)

  /** A fresh builder: balance ZERO, no clock. */
  const INITIAL: Pending := Pending(ZERO, None)

  /** One setter call in a fluent chain: withBalance(b) or withClock(c), where c may be null. */
  datatype Call = SetBalance(balance: Money) | SetClock(clock: Option<Clock>)

  /** The effect of one setter: it replaces its own field and leaves the other alone. */
  function Apply(p: Pending, call: Call): (next: Pending)
  {
    match call
    case SetBalance(b) => p.(balance := b)
    case SetClock(c) => p.(clock := c)
  }

  /** The state of a builder from anAccount() after a chain of setter calls: the last call
      applied to the state after the calls before it. */
  function Run(calls: seq<Call>): (state: Pending)
  {
    if calls == [] then INITIAL else Apply(Run(calls[..|calls| - 1]), calls[|calls| - 1])
  }

  predicate NoBalanceCall(calls: seq<Call>)
  {
    forall i :: 0 <= i < |calls| ==> !calls[i].SetBalance?
  }

  /** The pending balance after a chain is ZERO when the chain never calls withBalance, and
      otherwise the argument of its last withBalance call: a later call overwrites an earlier one. */
  lemma {:induction false} LastBalanceWins(calls: seq<Call>)
    ensures NoBalanceCall(calls) ==> Run(calls).balance == ZERO
    ensures !NoBalanceCall(calls) ==>
      exists k :: 0 <= k < |calls| && calls[k] == SetBalance(Run(calls).balance) && NoBalanceCall(calls[k + 1..])
  {
    if calls != [] {
      var n := |calls|;
      var prefix := calls[..n - 1];
      assert calls == prefix + [calls[n - 1]];
      if calls[n - 1].SetBalance? {
        assert calls[n..] == [];
      } else {
        LastBalanceWins(prefix);
        if !NoBalanceCall(calls) {
          var i :| 0 <= i < n && calls[i].SetBalance?;
          assert prefix[i] == calls[i];
          var k :| 0 <= k < |prefix| && prefix[k] == SetBalance(Run(prefix).balance) && NoBalanceCall(prefix[k + 1..]);
          assert calls[k + 1..] == prefix[k + 1..] + [calls[n - 1]];
          assert calls[k] == prefix[k];
        }
      }
    }
  }

  /** A builder from anAccount() cannot build after a chain exactly when every non-null clock the
      chain sets is later reset to null (in particular when the chain never sets a clock). */
  lemma {:induction false} BuildFailsIff(calls: seq<Call>)
    ensures Run(calls).clock.None? <==>
      forall k :: 0 <= k < |calls| && calls[k].SetClock? && calls[k].clock.Some? ==>
        exists j :: k < j < |calls| && calls[j] == SetClock(None)
  {
    if calls != [] {
      var n := |calls|;
      var prefix := calls[..n - 1];
      var last := calls[n - 1];
      BuildFailsIff(prefix);
      if last.SetClock? && last.clock.Some? {
        assert calls[n - 1] == last;
      } else if last.SetClock? {
        forall k | 0 <= k < n && calls[k].SetClock? && calls[k].clock.Some?
          ensures exists j :: k < j < n && calls[j] == SetClock(None)
        {
          assert calls[n - 1] == SetClock(None);
        }
      } else {
        forall k | 0 <= k < n - 1
          ensures calls[k] == prefix[k]
        {
        }
        if Run(calls).clock.None? {
          forall k | 0 <= k < n && calls[k].SetClock? && calls[k].clock.Some?
            ensures exists j :: k < j < n && calls[j] == SetClock(None)
          {
            var j :| k < j < n - 1 && prefix[j] == SetClock(None);
            assert calls[j] == SetClock(None);
          }
        } else {
          var k :| 0 <= k < n - 1 && prefix[k].SetClock? && prefix[k].clock.Some? &&
                   !(exists j :: k < j < n - 1 && prefix[j] == SetClock(None));
          assert calls[k] == prefix[k];
          forall j | k < j < n
            ensures calls[j] != SetClock(None)
          {
            if j < n - 1 {
              assert prefix[j] == calls[j];
            }
          }
        }
      }
    }
  }

  class AccountBuilder {
    var initialBalance: Money
    var clock: Option<Clock>

    /** The builder's fields as a value. */
    function State(): (state: Pending)
      reads this
    {
      Pending(initialBalance, clock)
    }

    /** The private constructor with its field initialisers: balance ZERO, clock null. */
    constructor ()
      ensures State() == INITIAL
    {
      initialBalance := ZERO;
      clock := None;
    }

    static method AnAccount() returns (builder: AccountBuilder)
      ensures fresh(builder)
      ensures builder.State() == INITIAL
    {
      builder := new AccountBuilder();
    }

    /** Sets the pending balance and returns this same builder for chaining. */
    method WithBalance(balance: Money) returns (self: AccountBuilder)
      modifies this
      ensures self == this
      ensures State() == Apply(old(State()), SetBalance(balance))
      ensures initialBalance == balance && clock == old(clock)
    {
      initialBalance := balance;
      self := this;
    }

    /** Sets the clock (None for a null argument) and returns this same builder for chaining. */
    method WithClock(clock: Option<Clock>) returns (self: AccountBuilder)
      modifies this
      ensures self == this
      ensures State() == Apply(old(State()), SetClock(clock))
      ensures this.clock == clock && initialBalance == old(initialBalance)
    {
      this.clock := clock;
      self := this;
    }

    /** Fails with IllegalState when no clock is set; otherwise opens a new account with the
        pending balance, the clock and no history. The builder itself is left as it was. */
    method Build() returns (r: Result<Account, BuildError>)
      ensures r.Failure? <==> clock.None?
      ensures r.Failure? ==> r.error == IllegalState(CLOCK_MISSING)
      ensures r.Success? ==> fresh(r.value) && r.value.Valid() &&
                             r.value.balance == initialBalance && r.value.clock == clock.value &&
                             r.value.history == []
    {
      if clock.None? {
        return Failure(IllegalState(CLOCK_MISSING));
      }
      var account := new Account.WithBalance(initialBalance, clock.value);
      r := Success(account);
    }
  }

  /** Drives a builder from anAccount() through a chain of setter calls: the builder's state is
      then the replay of that chain, so the lemmas about Run speak about real builders. */
  method ReplayChain(calls: seq<Call>) returns (builder: AccountBuilder)
    ensures fresh(builder)
    ensures builder.State() == Run(calls)
  {
    builder := AccountBuilder.AnAccount();
    var i := 0;
    while i < |calls|
      invariant 0 <= i <= |calls|
      invariant fresh(builder)
      invariant builder.State() == Run(calls[..i])
    {
      assert calls[..i + 1][..i] == calls[..i];
      match calls[i] {
        case SetBalance(b) => builder := builder.WithBalance(b);
        case SetClock(c) => builder := builder.WithClock(c);
      }
      i := i + 1;
    }
    assert calls[..|calls|] == calls;
  }

  /** Building twice from one builder gives two distinct accounts with the same balance and clock,
      or fails both times. */
  method BuildTwice(builder: AccountBuilder) returns (first: Result<Account, BuildError>, second: Result<Account, BuildError>)
    ensures first.Failure? <==> second.Failure?
    ensures first.Success? ==> first.value != second.value &&
                               first.value.balance == second.value.balance &&
                               first.value.clock == second.value.clock
  {
    first := builder.Build();
    second := builder.Build();
  }
}
