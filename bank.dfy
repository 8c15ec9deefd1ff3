/** The ledger types the construction helpers use: Money, Instant, Clock, Transaction and Account.
    Only as much of them is modelled as the builder, the prototype and the step definitions rely on:
    an account seeded with a balance and a clock, deposits that add, withdrawals that subtract,
    and an append-only history of transactions stamped by the account's clock. */
module Bank {

  /** An amount of money in minor currency units (e.g. cents); compared by value. */
  datatype Money = Money(minor: int)

  const ZERO: Money := Money(0)

  function AmountOf(n: int): (m: Money)
  {
    Money(n)
  }

  function Add(a: Money, b: Money): (sum: Money)
  {
    Money(a.minor + b.minor)
  }

  function Subtract(a: Money, b: Money): (difference: Money)
  {
    Money(a.minor - b.minor)
  }

  /** A point in time, as whole seconds since 1970-01-01T00:00:00Z. */
  datatype Instant = Instant(epochSecond: int)

  /** A clock is a zero-argument source of instants: either one that always answers the same
      instant, or the environment's wall clock, whose reading is supplied by the caller. */
  datatype Clock = Fixed(at: Instant) | WallClock

  /** The instant a clock answers when asked now, given what the wall clock reads at that moment. */
  function Now(clock: Clock, wall: Instant): (now: Instant)
  {
    match clock
    case Fixed(at) => at
    case WallClock => wall
  }

  datatype Kind = Deposit | Withdrawal

  /** One ledger event: what happened, how much, and when the account's clock said it happened. */
  datatype Transaction = Transaction(kind: Kind, amount: Money, at: Instant)

  /** The sum of the amounts of the transactions of one kind in a history. */
  function TotalOf(history: seq<Transaction>, kind: Kind): (total: int)
  {
    if history == [] then 0
    else (if history[0].kind == kind then history[0].amount.minor else 0) + TotalOf(history[1..], kind)
  }

  /** Appending one transaction adds its amount to the total of its own kind and nothing to the other. */
  lemma {:induction false} TotalOfAppend(history: seq<Transaction>, t: Transaction, kind: Kind)
    ensures TotalOf(history + [t], kind) == TotalOf(history, kind) + (if t.kind == kind then t.amount.minor else 0)
  {
    if history != [] {
      assert (history + [t])[1..] == history[1..] + [t];
      TotalOfAppend(history[1..], t, kind);
    }
  }

  /** The balance an account opened with `seed` has after `history`: the seed plus every deposit
      minus every withdrawal (the opening balance is a seed, not a transaction). */
  function Balance(seed: Money, history: seq<Transaction>): (balance: Money)
  {
    Money(seed.minor + TotalOf(history, Deposit) - TotalOf(history, Withdrawal))
  }

  /** Recording a deposit raises the balance by its amount, recording a withdrawal lowers it. */
  lemma BalanceAppend(seed: Money, history: seq<Transaction>, t: Transaction)
    ensures Balance(seed, history + [t]) ==
            if t.kind == Deposit then Add(Balance(seed, history), t.amount)
            else Subtract(Balance(seed, history), t.amount)
  {
    TotalOfAppend(history, t, Deposit);
    TotalOfAppend(history, t, Withdrawal);
  }

  /** Every transaction in `history` carries the instant `at`. */
  ghost predicate AllStampedAt(history: seq<Transaction>, at: Instant)
  {
    forall i :: 0 <= i < |history| ==> history[i].at == at
  }

  /** A bank account: its balance, its history and the clock it was opened with. */
  class Account {
    var balance: Money
    var history: seq<Transaction>
    const clock: Clock
    /** The balance the account was opened with. */
    ghost const seed: Money

    /** The balance is the seed plus the net of the history, and an account on a fixed clock
        stamps every transaction with that clock's instant. */
    ghost predicate Valid()
      reads this
    {
      balance == Balance(seed, history) &&
      (clock.Fixed? ==> AllStampedAt(history, clock.at))
    }

    /** Account.accountWithBalance: a new account with the given balance and clock and no history. */
    constructor WithBalance(initialBalance: Money, clock: Clock)
      ensures Valid()
      ensures balance == initialBalance && history == [] && this.clock == clock
    {
      balance := initialBalance;
      history := [];
      this.clock := clock;
      seed := initialBalance;
    }

    /** Adds a positive amount to the balance and records a deposit stamped by the account's clock. */
    method Deposit(amount: Money, wall: Instant)
      requires Valid()
      requires amount.minor > 0
      modifies this
      ensures Valid()
      ensures balance == Add(old(balance), amount)
      ensures history == old(history) + [Transaction(Kind.Deposit, amount, Now(clock, wall))]
    {
      var t := Transaction(Kind.Deposit, amount, Now(clock, wall));
      BalanceAppend(seed, history, t);
      balance := Add(balance, amount);
      history := history + [t];
    }

    /** Subtracts a positive amount no larger than the balance and records a withdrawal
        stamped by the account's clock. */
    method Withdraw(amount: Money, wall: Instant)
      requires Valid()
      requires 0 < amount.minor <= balance.minor
      modifies this
      ensures Valid()
      ensures balance == Subtract(old(balance), amount) && balance.minor >= 0
      ensures history == old(history) + [Transaction(Withdrawal, amount, Now(clock, wall))]
    {
      var t := Transaction(Withdrawal, amount, Now(clock, wall));
      BalanceAppend(seed, history, t);
      balance := Subtract(balance, amount);
      history := history + [t];
    }
  }
}
