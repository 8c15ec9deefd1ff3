/** BankAccountPrototype: a deterministic fixture. The class holds one base account of 12345 minor
    units on a clock fixed at 2019-02-03T10:15:30Z; every new prototype opens a fresh account from
    the base account's balance and runs a fixed deposit/withdraw/deposit script on it; cloning a
    prototype copies its fields, so the copy shares the original's account. */
module Prototype {
  import opened Bank

  /** 2019-02-03T10:15:30Z in seconds since the epoch. */
  const FIXED_INSTANT: Instant := Instant(1549188930)

  const FIXED_CLOCK: Clock := Fixed(FIXED_INSTANT)

  const BASE_BALANCE: Money := AmountOf(12345)

  /** The fixed clock answers 2019-02-03T10:15:30Z on every call, whatever the wall clock reads. */
  lemma FixedClockIsConstant(wall1: Instant, wall2: Instant)
    ensures Now(FIXED_CLOCK, wall1) == Now(FIXED_CLOCK, wall2) == FIXED_INSTANT
  {
  }

  /** The transactions the constructor's script records on an account whose clock answers `at`:
      deposit 1000, withdraw 250, deposit 500, in that order. */
  function ScriptHistory(at: Instant): (history: seq<Transaction>)
  {
    [Transaction(Deposit, AmountOf(1000), at),
     Transaction(Withdrawal, AmountOf(250), at),
     Transaction(Deposit, AmountOf(500), at)]
  }

  /** The script adds 1000 - 250 + 500 = 1250 to whatever balance it starts from. */
  lemma ScriptNetEffect(seed: Money, at: Instant)
    ensures Balance(seed, ScriptHistory(at)) == AmountOf(seed.minor + 1250)
  {
    var h := ScriptHistory(at);
    BalanceAppend(seed, [], h[0]);
    BalanceAppend(seed, [h[0]], h[1]);
    BalanceAppend(seed, [h[0], h[1]], h[2]);
    assert [h[0], h[1]] == [h[0]] + [h[1]];
    assert h == [h[0], h[1]] + [h[2]];
  }

  /** From any non-negative opening balance the script never withdraws more than the account holds. */
  lemma ScriptNeverOverdraws(seed: Money, at: Instant)
    requires seed.minor >= 0
    ensures forall k :: 0 <= k < |ScriptHistory(at)| && ScriptHistory(at)[k].kind == Withdrawal ==>
              ScriptHistory(at)[k].amount.minor <= Balance(seed, ScriptHistory(at)[..k]).minor
  {
    var h := ScriptHistory(at);
    BalanceAppend(seed, [], h[0]);
    assert h[..1] == [] + [h[0]];
  }

  /** The fixture's base account and the balance its prototypes end up with. */
  lemma FixtureBalance()
    ensures Balance(BASE_BALANCE, ScriptHistory(FIXED_INSTANT)) == AmountOf(13595)
    ensures Balance(BASE_BALANCE, ScriptHistory(FIXED_INSTANT)[..1]).minor == 13345
  {
    ScriptNetEffect(BASE_BALANCE, FIXED_INSTANT);
    var h := ScriptHistory(FIXED_INSTANT);
    BalanceAppend(BASE_BALANCE, [], h[0]);
    assert h[..1] == [] + [h[0]];
  }

  /** The static state of BankAccountPrototype: the base account, created once with the fixture's
      balance and clock and never changed afterwards. */
  class PrototypeStatics {
    const baseAccount: Account

    ghost predicate Valid()
      reads this, baseAccount
    {
      baseAccount.Valid() && baseAccount.balance == BASE_BALANCE && baseAccount.clock == FIXED_CLOCK
    }

    /** The static initialiser: the base account of 12345 on the fixed clock. */
    constructor ()
      ensures Valid() && fresh(baseAccount) && baseAccount.history == []
    {
      baseAccount := new Account.WithBalance(AmountOf(12345), FIXED_CLOCK);
    }

    /** A new account with the base account's balance and the fixed clock. Only the balance is
        copied: the new account has no history, and the base account is only read. */
    method CloneBaseAccount() returns (account: Account)
      requires Valid()
      ensures fresh(account) && account.Valid()
      ensures account.balance == baseAccount.balance == BASE_BALANCE
      ensures account.clock == FIXED_CLOCK && account.history == []
    {
      account := new Account.WithBalance(baseAccount.balance, FIXED_CLOCK);
    }
  }

  class BankAccountPrototype {
    const account: Account

    /** Opens a fresh account from the base account and runs the script on it; the base account
        keeps its balance. */
    constructor (statics: PrototypeStatics)
      requires statics.Valid()
      ensures statics.Valid() && statics.baseAccount.history == old(statics.baseAccount.history)
      ensures fresh(account) && account.Valid() && account.clock == FIXED_CLOCK
      ensures account.balance == AmountOf(13595)
      ensures account.history == ScriptHistory(FIXED_INSTANT)
    {
      var a := statics.CloneBaseAccount();
      account := a;
      // The account's clock is fixed, so the wall-clock reading passed here is never consulted.
      a.Deposit(AmountOf(1000), Instant(0));
      a.Withdraw(AmountOf(250), Instant(0));
      a.Deposit(AmountOf(500), Instant(0));
    }

    /** Object.clone's field-wise copy: the new prototype holds the very same account. */
    constructor FieldCopy(other: BankAccountPrototype)
      ensures account == other.account
    {
      account := other.account;
    }

    /** The held account itself, not a copy. */
    method GetAccount() returns (a: Account)
      ensures a == account
    {
      a := account;
    }

    /** A shallow copy: a new prototype object that shares this one's account. */
    method Clone() returns (copy: BankAccountPrototype)
      ensures fresh(copy) && copy.account == account
    {
      copy := new BankAccountPrototype.FieldCopy(this);
    }
  }

  /** Because the clone shares the original's account, a deposit made through the clone's account
      is seen through the original's. */
  method CloneSharesAccount(original: BankAccountPrototype, amount: Money, wall: Instant)
    returns (copy: BankAccountPrototype)
    requires original.account.Valid() && amount.minor > 0
    modifies original.account
    ensures fresh(copy) && copy != original && copy.account == original.account
    ensures original.account.balance == Add(old(original.account.balance), amount)
  {
    copy := original.Clone();
    var shared := copy.GetAccount();
    shared.Deposit(amount, wall);
  }
}
