# Bank account construction helpers

A Dafny model of the two construction helpers of the xp-dojo bank sample
(package `org.xpdojo.bank.patterns`):

- **`AccountBuilder`** — a fluent builder. A new builder holds the pending balance `Money.ZERO`
  and no clock. `withBalance` and `withClock` overwrite their own field and return the same
  builder. `build()` throws `IllegalStateException("Clock must be provided to build an Account.")`
  when the clock is null. Otherwise it returns `Account.accountWithBalance(initialBalance, clock)`.
- **`BankAccountPrototype`** — a deterministic fixture. The class holds one static base account of
  12345 minor units on a clock fixed at 2019-02-03T10:15:30Z. `cloneBaseAccount()` opens a new
  account from the base account's balance and that clock. Each new prototype runs a script on such
  an account: deposit 1000, withdraw 250, deposit 500. It ends at 13595 with three transactions,
  all stamped with the fixed instant. `clone()` is `Object.clone`'s field-wise copy, so the copy and
  the original hold the same `Account` object.

The helpers call the repository's `Account`, `Money`, `Clock` and `Transaction` classes. Only the
construction helpers are modelled from code; module `Bank` gives those four classes the smallest
model the helpers and the step definitions rely on:
- money in minor units;
- an instant as seconds since the epoch;
- a clock that is either fixed or the wall clock;
- an account whose deposits add to the balance and whose withdrawals subtract from it;
- an append-only history of `(kind, amount, instant)`, each entry stamped by the account's clock.

The account's invariant `Valid()` says two things. The balance is the opening balance plus all
deposits minus all withdrawals. On a fixed clock, every transaction carries the clock's instant.

Layout:
- `wrappers.dfy` — `Option`, for a nullable clock, and `Result`, for a thrown exception.
- `bank.dfy` — the minimal ledger model.
- `builder.dfy` — `AccountBuilder` as a class. Beside it is a pure replay of a chain of setter
  calls (`Apply`, `Run`), with lemmas about what a chain leaves behind. `ReplayChain` drives a real
  builder through such a chain and proves that its state is the replay.
- `prototype.dfy` — `BankAccountPrototype`. Its static state (the base account) is the class
  `PrototypeStatics`, whose constructor plays the static initialiser. The script's transactions
  are the function `ScriptHistory`, with lemmas about it.
- `steps.dfy` — the account that the "existing bank account" step definition builds (see Findings).

## Model

| member | source | states |
|---|---|---|
| `Bank.TotalOfAppend` | src/main/java/org/xpdojo/bank/patterns/prototype/BankAccountPrototype.java:47-49 | recording one more transaction adds its amount to the total of its own kind and leaves the other kind's total unchanged |
| `Bank.BalanceAppend` | src/main/java/org/xpdojo/bank/patterns/prototype/BankAccountPrototype.java:47-49 | a recorded deposit raises the ledger balance by its amount; a recorded withdrawal lowers it by its amount |
| `Bank.Account.WithBalance` | src/main/java/org/xpdojo/bank/patterns/builder/AccountBuilder.java:47 | `accountWithBalance` opens an account with the given balance and clock and an empty history; the opening balance is a seed, not a transaction |
| `Bank.Account.Deposit` | src/behaviour/java/org/xpdojo/bank/BankAccountSteps.java:21-29 | a positive deposit adds its amount to the balance and appends one deposit stamped with the account clock's current instant; the invariant that the balance is the seed plus deposits minus withdrawals is kept |
| `Bank.Account.Withdraw` | src/main/java/org/xpdojo/bank/patterns/prototype/BankAccountPrototype.java:48 | a positive withdrawal no larger than the balance subtracts its amount, leaves the balance non-negative, appends one withdrawal stamped by the clock and keeps the invariant |
| `Builder.AccountBuilder.constructor` | src/main/java/org/xpdojo/bank/patterns/builder/AccountBuilder.java:24-27 | the field initialisers: a new builder's pending balance is ZERO and its clock is null |
| `Builder.AccountBuilder.AnAccount` | src/main/java/org/xpdojo/bank/patterns/builder/AccountBuilder.java:29-31 | `anAccount()` returns a new builder in the initial state (ZERO, no clock) |
| `Builder.AccountBuilder.WithBalance` | src/main/java/org/xpdojo/bank/patterns/builder/AccountBuilder.java:33-36 | sets the pending balance, leaves the clock unchanged and returns the same builder object |
| `Builder.AccountBuilder.WithClock` | src/main/java/org/xpdojo/bank/patterns/builder/AccountBuilder.java:38-41 | sets the clock, including to null, leaves the pending balance unchanged and returns the same builder object |
| `Builder.AccountBuilder.Build` | src/main/java/org/xpdojo/bank/patterns/builder/AccountBuilder.java:43-48 | fails with IllegalState and the builder's message exactly when the clock is null, producing no account; otherwise returns a new valid account with the pending balance, the clock and no history; the builder's fields are not changed |
| `Builder.BuildTwice` | src/main/java/org/xpdojo/bank/patterns/builder/AccountBuilder.java:43-48 | two builds from one builder either both fail, or give two distinct accounts with the same balance and clock |
| `Builder.ReplayChain` | src/main/java/org/xpdojo/bank/patterns/builder/AccountBuilder.java:29-41 | a builder from `anAccount()` driven through any chain of `withBalance`/`withClock` calls ends in the state the pure replay `Run` of that chain gives, so the lemmas about `Run` hold of real builders |
| `Builder.LastBalanceWins` | src/main/java/org/xpdojo/bank/patterns/builder/AccountBuilder.java:24-36 | after any chain of setter calls, the pending balance is ZERO if withBalance was never called, and otherwise the argument of the last withBalance call: later calls overwrite earlier ones, and withClock calls never affect it |
| `Builder.BuildFailsIff` | src/main/java/org/xpdojo/bank/patterns/builder/AccountBuilder.java:38-46 | after a chain from `anAccount()`, build fails if and only if every non-null clock the chain sets is followed by a `withClock(null)`; in particular it fails for every chain that never sets a clock |
| `Prototype.FixedClockIsConstant` | src/main/java/org/xpdojo/bank/patterns/prototype/BankAccountPrototype.java:34 | the fixed clock answers 2019-02-03T10:15:30Z on every call, whatever the wall clock reads |
| `Prototype.ScriptNetEffect` | src/main/java/org/xpdojo/bank/patterns/prototype/BankAccountPrototype.java:47-49 | the deposit 1000, withdraw 250, deposit 500 script raises any opening balance by exactly 1250 |
| `Prototype.ScriptNeverOverdraws` | src/main/java/org/xpdojo/bank/patterns/prototype/BankAccountPrototype.java:47-48 | from any non-negative opening balance, every withdrawal in the script is covered by the balance the account holds at that point |
| `Prototype.FixtureBalance` | src/main/java/org/xpdojo/bank/patterns/prototype/BankAccountPrototype.java:36-49 | from the base balance 12345 the script ends at 13595, and the withdrawal of 250 happens at 13345 |
| `Prototype.PrototypeStatics.constructor` | src/main/java/org/xpdojo/bank/patterns/prototype/BankAccountPrototype.java:34-36 | the static initialiser creates one base account with balance 12345, the fixed clock and no history |
| `Prototype.PrototypeStatics.CloneBaseAccount` | src/main/java/org/xpdojo/bank/patterns/prototype/BankAccountPrototype.java:38-40 | returns a new account, distinct from the base account, with the base account's balance (12345), the fixed clock and no history: only the balance is copied; the base account is only read |
| `Prototype.BankAccountPrototype.constructor` | src/main/java/org/xpdojo/bank/patterns/prototype/BankAccountPrototype.java:42-51 | a new prototype holds a new account on the fixed clock with balance 13595 and the history deposit 1000, withdrawal 250, deposit 500, in that order, all stamped 2019-02-03T10:15:30Z; the base account keeps its balance 12345 and its history |
| `Prototype.BankAccountPrototype.FieldCopy` | src/main/java/org/xpdojo/bank/patterns/prototype/BankAccountPrototype.java:61 | `super.clone()` copies the `account` field reference as it is |
| `Prototype.BankAccountPrototype.GetAccount` | src/main/java/org/xpdojo/bank/patterns/prototype/BankAccountPrototype.java:53-55 | returns the held account object itself, not a copy |
| `Prototype.BankAccountPrototype.Clone` | src/main/java/org/xpdojo/bank/patterns/prototype/BankAccountPrototype.java:58-65 | returns a new prototype object whose account is the very same object as the original's |
| `Prototype.CloneSharesAccount` | src/main/java/org/xpdojo/bank/patterns/prototype/BankAccountPrototype.java:32-65 | because of the shallow clone, a deposit made through the clone's account shows in the original's account balance |
| `AccountSteps.ExistingAccountAsWritten` | src/behaviour/java/org/xpdojo/bank/BankAccountSteps.java:18 | `anAccount().withBalance(amountOf(0)).build()` fails with the missing-clock IllegalState and produces no account |
| `AccountSteps.ExistingAccount` | src/behaviour/java/org/xpdojo/bank/BankAccountSteps.java:18 | the same chain with a clock supplied builds a new valid account with balance 0, that clock and no history |
| `AccountSteps.ExistingAccountChainHasNoClock` | src/behaviour/java/org/xpdojo/bank/BankAccountSteps.java:18 | replayed on the builder's state, the step's chain leaves the balance ZERO and the clock unset |

## Left out

- Bank.Account.Deposit: `Account`'s validation of amounts is outside this model; only the construction helpers are modelled from code. A positive amount is therefore a precondition, not a modelled error.
- Bank.Account.Withdraw: `Account`'s handling of non-positive amounts and overdrafts is outside this model for the same reason. Both are preconditions, not modelled errors.
- Builder.AccountBuilder.WithBalance: a null balance is not modelled. Neither the builder nor the prototype tests for it, and what `accountWithBalance` would do with it is outside this model.
- Money overflow is not modelled. Amounts are unbounded integers, because `Money`'s internals are outside this model.
- The wall clock (`Instant::now`) is nondeterministic. Its reading is a parameter of `Deposit` and `Withdraw`, and a fixed clock ignores it.
- Instant parsing is left out. The fixed instant 2019-02-03T10:15:30Z is the constant 1549188930 seconds since the epoch.
- `Statement`, its date-range filter and its transaction lookup are not modelled. Neither helper calls `Statement`; `BankAccountPrototype` imports it without using it.
- Timestamp ordering under a running wall clock is not stated. Only the fixed-clock case is, where every stamp is the same instant.
- The `CloneNotSupportedException` branch of `clone()` is left out. `BankAccountPrototype` implements `Cloneable`, so `super.clone()` cannot throw it.
- `BankAccountPrototype`'s static fields are modelled as the object `PrototypeStatics`, created once and passed to the constructor. JVM class initialisation and thread safety are out of scope.
- The comments at `BankAccountPrototype.java:43` and `:46` speak of a zero opening balance and of different timestamps. The code opens at 12345 and stamps every transaction with one fixed instant; the model follows the code.
- `clone()` is modelled as written, so the copy shares the original's account. An independent deep copy would be a different operation, and the code does not do it.
- Page objects, the login servlet, the DSL classes and the Cucumber and Concordion glue are browser automation and test harness code, not ledger logic.

## Findings

| source | as written | input that shows it | evidently intended | confidence | as-written member | corrected member |
|---|---|---|---|---|---|---|
| src/behaviour/java/org/xpdojo/bank/BankAccountSteps.java:18 | the "existing bank account" step builds with `anAccount().withBalance(amountOf(0)).build()` and never sets a clock | the step itself, with no input: `build()` sees a null clock and throws IllegalStateException, so the later deposit and balance steps never get an account | the chain also calls `withClock(...)` and yields an account with balance 0 and no history | high; not executed | `AccountSteps.ExistingAccountAsWritten` | `AccountSteps.ExistingAccount` |
