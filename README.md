# payeng ledger in Dafny

This project models the core of `payeng`, a payment engine. It reads an
ordered list of transaction records and replays them into per-client account
balances. The records are deposits, withdrawals, and the three dispute
events: dispute, resolve and chargeback. The engine works in two passes:

1. **Preprocessing.** Every record is validated. The deposits and
   withdrawals are collected into a table keyed by transaction id. Their
   ids are listed in arrival order. Each event is attached to the
   transaction it references.
2. **Processing.** The ids are replayed in order. Each transaction is
   booked on its client's account, which is created on first use. Then the
   transaction's events are applied. The run aborts on the first error.

Amounts are integers counted in ten-thousandths, the unit this model picks:
`10000` stands for `1.0`. Client ids are `u16` (`ClientId`) and
transaction ids are `u32` (`TxId`).

Modules:

- `Common`: `Option` and `Result`, the bounded id types and `NoDuplicates`.
- `Transactions`: transaction types, event types, statuses and the
  transaction record with its attached events.
- `RawRecords`: the raw input record and its validation into a transaction
  or an event.
- `Accounts`: the account state machine. This is a value-level
  specification, `AccountState` with one `…Outcome` function per
  operation, plus the `Account` class whose methods update its fields in
  place and are proved against those functions.
- `Preprocessing`: the first pass. It is specified by `PreprocessSpec`; the
  method `Preprocess` runs it as one loop.
- `Engine`: the second pass. It is specified by `Replay` on values; the
  method `ProcessTransactions` runs it over `Account` objects held in a
  map.
- `Pipeline`: both passes in sequence.
- `Scenarios`: the tests of src/payment_engine.rs:94-215 and
  src/payment_engine/preprocessing.rs:57-98, worked out end to end.
- `EarlyRecords` and `EarlyAccount`: the earlier revision of the program.
  Its tag parser accepts all five record kinds. Its account has no lock
  and no funds check.

Within the later revision the source calls the booked status `Booked` in
the `TransactionStatus` enum (src/models/transaction/transaction.rs:12),
but `Processed` where the engine sets it (src/payment_engine.rs:28). The
model has the one status `Processed`.

Notes on the code's behaviour:

- An event record that carries an amount is rejected with
  `InvalidAmount(tx, kind)` (src/models/raw_transaction.rs:41).
- The validator does not reject negative or non-finite amounts, and it does
  not round them. It copies the amount as given.
- A dispute has no status guard (src/payment_engine.rs:64-67). Disputing a
  transaction twice moves its funds twice, and a later resolve restores
  only one of the moves (`Scenarios.DoubleDispute`).

## Model

| member | source | states |
|---|---|---|
| Transactions.NewTransaction | src/models/transaction/transaction.rs:29-44 | a new transaction carries the given type, client, id and amount, no events, and status Initial |
| RawRecords.Check | src/models/raw_transaction.rs:19-79 | every transaction that validation produces is fresh: no events and status Initial |
| RawRecords.CheckTransactionRecord | src/models/raw_transaction.rs:21-38 | a record yields a transaction exactly when its tag is `deposit` or `withdrawal` and it has an amount; the type follows the tag, and client, id and amount are copied |
| RawRecords.CheckEventRecord | src/models/raw_transaction.rs:39-74 | a record yields an event exactly when its tag is one of the three event tags and it has no amount; the event type follows the tag, and client and referenced id are copied |
| RawRecords.CheckRejects | src/models/raw_transaction.rs:19-79 | validation fails exactly on an unknown tag, a transaction without an amount, or an event with an amount; the error is InvalidTransactionType, MissingAmount or InvalidAmount respectively |
| RawRecords.Render | src/models/raw_transaction.rs:19-79 | every fresh transaction and every event is the validation of the record it renders to |
| RawRecords.CheckIsInjective | src/models/raw_transaction.rs:19-79 | validation loses nothing: a valid record is the rendering of what it validates to |
| Accounts.DepositOutcome | src/models/account/account.rs:32-49 | a deposit succeeds iff the transaction is a deposit of this client and the account is unlocked; then available and total grow by the amount and nothing else changes; a wrong type, a wrong client and a lock each give their own error, checked in the source's order |
| Accounts.WithdrawOutcome | src/models/account/account.rs:51-72 | a withdrawal succeeds iff it is a withdrawal of this client, the account is unlocked, and the available amount covers it; then available and total shrink by the amount, available stays non-negative, and each failure gives its own error |
| Accounts.DisputeOutcome | src/models/account/account.rs:74-86 | only a Dispute event is accepted; the client must match; a disputed deposit moves its amount from available to held, a disputed withdrawal moves it back; total, lock and balance are kept |
| Accounts.ResolveOutcome | src/models/account/account.rs:88-107 | only a Resolve event is accepted; it is a successful no-op unless the transaction is Disputed; otherwise it reverses the dispute's move, keeping total, lock and balance |
| Accounts.ChargebackOutcome | src/models/account/account.rs:109-132 | only a Chargeback event is accepted; it is a successful no-op unless the transaction is Disputed; otherwise a deposit's held funds leave the account (a withdrawal's come back), available is kept and the account is locked |
| Accounts.DisputeDepositOutcome | src/models/account/account.rs:134-142 | fails with InvalidClientId exactly when the client differs; otherwise the deposit's amount moves from available to held, and total, lock and client are kept |
| Accounts.DisputeWithdrawalOutcome | src/models/account/account.rs:144-152 | fails with InvalidClientId exactly when the client differs; otherwise the withdrawn amount moves from held to available, and total, lock and client are kept |
| Accounts.ResolveDepositOutcome | src/models/account/account.rs:154-162 | fails with InvalidClientId exactly when the client differs; otherwise its result is the state that DisputeDepositOutcome's move turns back into the given one, with the same total |
| Accounts.ResolveWithdrawalOutcome | src/models/account/account.rs:164-172 | fails with InvalidClientId exactly when the client differs; otherwise its result is the state that DisputeWithdrawalOutcome's move turns back into the given one, with the same total |
| Accounts.ChargebackDepositOutcome | src/models/account/account.rs:174-182 | fails with InvalidClientId exactly when the client differs; otherwise held and total shrink by the amount and available, lock and client are kept |
| Accounts.ChargebackWithdrawalOutcome | src/models/account/account.rs:184-192 | fails with InvalidClientId exactly when the client differs; otherwise held and total grow by the amount and available, lock and client are kept |
| Accounts.ResolveUndoesDispute | src/models/account/account.rs:134-172 | resolving a disputed transaction returns the account to exactly its state before the dispute |
| Accounts.LockIsPermanent | src/models/account/account.rs:28-132 | a locked account refuses deposits and withdrawals and stays locked under every event |
| Accounts.Account.constructor | src/models/account/account.rs:18-26 | a new account for a client holds nothing and is unlocked |
| Accounts.Account.Freeze | src/models/account/account.rs:28-30 | freezing sets the lock and changes no amount |
| Accounts.Account.Deposit | src/models/account/account.rs:32-49 | the method returns DepositOutcome's error, and the account becomes DepositOutcome's new state on success and is left unchanged on failure |
| Accounts.Account.Withdraw | src/models/account/account.rs:51-72 | the same agreement with WithdrawOutcome |
| Accounts.Account.Dispute | src/models/account/account.rs:74-86 | the same agreement with DisputeOutcome |
| Accounts.Account.Resolve | src/models/account/account.rs:88-107 | the same agreement with ResolveOutcome |
| Accounts.Account.Chargeback | src/models/account/account.rs:109-132 | the same agreement with ChargebackOutcome, including the lock on success |
| Accounts.Account.DisputeDeposit | src/models/account/account.rs:134-142 | with a matching client the held amount grows by the amount and available shrinks by it; otherwise InvalidClientId and nothing changes |
| Accounts.Account.DisputeWithdrawal | src/models/account/account.rs:144-152 | with a matching client the held amount shrinks by the amount and available grows by it; otherwise InvalidClientId and nothing changes |
| Accounts.Account.ResolveDeposit | src/models/account/account.rs:154-162 | with a matching client the amount moves from held back to available; otherwise InvalidClientId and nothing changes |
| Accounts.Account.ResolveWithdrawal | src/models/account/account.rs:164-172 | with a matching client the amount moves from available back to held; otherwise InvalidClientId and nothing changes |
| Accounts.Account.ChargebackDeposit | src/models/account/account.rs:174-182 | with a matching client held and total shrink by the amount; otherwise InvalidClientId and nothing changes |
| Accounts.Account.ChargebackWithdrawal | src/models/account/account.rs:184-192 | with a matching client held and total grow by the amount; otherwise InvalidClientId and nothing changes |
| Preprocessing.Admit | src/payment_engine/preprocessing.rs:21-45 | a transaction is admitted exactly when its id is not yet in the table, whatever its client, and otherwise fails with UniqueTransactionId; an admitted one ends the history and is filed under its id, no other entry changing; an event is appended to its transaction's events if it references a known transaction of the same client, and is otherwise dropped |
| Preprocessing.AdmitPreservesWellFormed | src/payment_engine/preprocessing.rs:21-45 | admitting an item keeps the history free of repeats and in step with the table's keys |
| Preprocessing.Step | src/payment_engine/preprocessing.rs:17-46 | a record that fails validation stops the pass with its validation error; a successful step comes from a valid record and extends the history by the record's transaction id, if it has one |
| Preprocessing.StepFacts | src/payment_engine/preprocessing.rs:17-46 | one step succeeds iff the record validates and does not repeat a transaction id already seen; it keeps the table well formed and extends the history by the record's id |
| Preprocessing.StepEntries | src/payment_engine/preprocessing.rs:22-45 | one successful step changes an existing entry only by appending the record's event to it, and files a new transaction record as it validated |
| Preprocessing.PreprocessSpec | src/payment_engine/preprocessing.rs:8-50 | the first pass as a fold of Step over the records from empty tables; its properties are the lemmas PreprocessInvariant, PreprocessSucceedsIff, PreprocessChain, FailureSticks and PreprocessCollectsEvents below |
| Preprocessing.PreprocessInvariant | src/payment_engine/preprocessing.rs:8-50 | a successful first pass comes from records that all validate, and yields a well-formed table whose history is the ids of the transaction records in input order |
| Preprocessing.PreprocessSucceedsIff | src/payment_engine/preprocessing.rs:8-50 | the first pass succeeds exactly when every record validates and no two transaction records share an id |
| Preprocessing.ValidAndUniqueSucceeds | src/payment_engine/preprocessing.rs:17-47 | valid records with distinct transaction ids always preprocess successfully |
| Preprocessing.PreprocessChain | src/payment_engine/preprocessing.rs:17-47 | the first pass equals any chain of tables that starts empty and is linked by one successful step per record |
| Preprocessing.FailureSticks | src/payment_engine/preprocessing.rs:19-24 | once a prefix of the input fails, the whole input fails with the same error |
| Preprocessing.PreprocessCollectsEvents | src/payment_engine/preprocessing.rs:31-45 | each table entry is its record's transaction, with the events, in arrival order, of the later records of its client that reference it |
| Preprocessing.CollectsOneMore | src/payment_engine/preprocessing.rs:31-45 | one more record extends an entry's collected events by that record's event for it, if any |
| Preprocessing.Preprocess | src/payment_engine/preprocessing.rs:8-50 | the loop computes exactly PreprocessSpec on the input |
| Engine.ApplyEvent | src/payment_engine.rs:62-82 | an event changes only the transaction's status; a dispute has no guard and marks it Disputed; resolve and chargeback act only on a Disputed transaction, marking it Resolved or Reversed and, for a chargeback, locking the account; the only failure is a client mismatch, and no event unlocks an account |
| Engine.ApplyEvents | src/payment_engine.rs:60-87 | replaying a transaction's events keeps its fields apart from the status, keeps the account's client and balance, never returns a processed transaction to Initial, never unlocks the account, and can fail only with InvalidClientId |
| Engine.ApplyEventsFailureSticks | src/payment_engine.rs:62-83 | once a prefix of the events fails, replaying all of them fails with the same error |
| Engine.IgnoredWithoutDispute | src/payment_engine.rs:68-81 | any run of resolves and chargebacks on a transaction that is not under dispute changes nothing |
| Engine.AccountFor | src/payment_engine.rs:24-49 | a client with an account books on that account; a client without one is given a new, empty, unlocked one |
| Engine.BaseOutcome | src/payment_engine.rs:23-51 | the base operation succeeds exactly for the account's own client on an unlocked account, and for a withdrawal only when the available funds cover it; then a deposit adds its amount to available and total, a withdrawal takes it away, and held, lock and client are kept |
| Engine.Book | src/payment_engine.rs:23-51 | a locked account books nothing; a booked transaction is its account's client's, changes only in its status, which ends past Initial, and leaves the account with its client id and balance |
| Engine.ProcessOne | src/payment_engine.rs:22-54 | a history id missing from the table fails with UniqueTransactionId |
| Engine.ProcessOneKeeps | src/payment_engine.rs:21-55 | each history entry keeps the ledger invariant: accounts sound and one per client seen, statuses only changed, and replayed transactions past Initial |
| Engine.Replay | src/payment_engine.rs:13-58 | the second pass as a fold of ProcessOne over the history from no accounts; it keeps the table's keys, and its only format error names a history id missing from the table; its further properties are ReplayInvariant, ReplayChain, ReplayFailureSticks and LockedClientFails below |
| Engine.ReplayInvariant | src/payment_engine.rs:13-58 | a successful replay leaves every account balanced and filed under its own id, one account per client named by the history, the transactions unchanged but for status, and every replayed one past Initial |
| Engine.ReplayChain | src/payment_engine.rs:21-55 | the replay equals any chain of ledgers that starts with no accounts and is linked by one successful entry per history id |
| Engine.ReplayFailureSticks | src/payment_engine.rs:21-55 | once a prefix of the history fails, the whole replay fails with the same error |
| Engine.LockedEntryFails | src/payment_engine.rs:23-51 | in a ledger whose accounts are filed under their own clients, an entry whose transaction belongs to a locked client fails with FrozenAccount of that client |
| Engine.ProcessOneKeepsLock | src/payment_engine.rs:21-55 | a successful entry leaves a locked client's account exactly as it was |
| Engine.LockStaysLocked | src/payment_engine.rs:21-55 | a client locked after some prefix of the history is still locked after the whole replay, when that succeeds |
| Engine.LockedLastEntryFails | src/payment_engine.rs:21-55 | a history whose last entry belongs to a client locked after an earlier entry fails with FrozenAccount of that client |
| Engine.LockedClientFails | src/payment_engine.rs:21-55 | once a client's account is locked after some history entry, any later entry of that client makes the whole replay fail |
| Engine.ProcessEvents | src/payment_engine.rs:60-87 | the loop over an account object succeeds exactly when ApplyEvents does, with the same error, the same final transaction and the same account state |
| Engine.ProcessTransaction | src/payment_engine.rs:23-51 | booking on the client's account object agrees with Book, and every other client's account is unchanged |
| Engine.OpenAccount | src/payment_engine.rs:24-32 | an existing client keeps its account object; a new client gets a fresh, empty, unlocked one; the map still holds distinct objects |
| Engine.ProcessEntry | src/payment_engine.rs:22-54 | one history entry over account objects agrees with ProcessOne: the same error, or the same accounts and transaction table |
| Engine.ProcessTransactions | src/payment_engine.rs:13-58 | the loop succeeds exactly when Replay does, fails with the same error, and on success its account objects hold Replay's accounts and its table is Replay's |
| Pipeline.Run | src/payment_engine.rs:103-106 | a record rejected by the first pass stops the run with that format error; once the first pass succeeds the run can fail only with an account error |
| Pipeline.RunSound | src/payment_engine.rs:13-58 | after a successful run every account is balanced and filed under its own id, and there is an account for exactly the clients of the transaction records |
| Scenarios.PreprocessDeposits | src/payment_engine.rs:96-104 | the five deposits and withdrawals preprocess into history [1, 2, 3, 4, 5] and the table of their fresh transactions |
| Scenarios.PreprocessDisputed | src/payment_engine/preprocessing.rs:57-98 | the seven records preprocess into history [1, 2, 3, 4, 5], with withdrawal 4 carrying the events [Dispute, Chargeback] |
| Scenarios.RunDeposits | src/payment_engine.rs:95-133 | the run succeeds with client 1 at available 1.5, held 0, total 1.5, unlocked, and client 2 at zero, unlocked |
| Scenarios.RunDisputed | src/payment_engine.rs:136-176 | the run succeeds with client 1 at available 3.0, held 0, total 3.0, locked, client 2 at zero, and withdrawal 4 Reversed |
| Scenarios.WithdrawalChargeback | src/payment_engine.rs:60-87 | a withdrawal disputed and charged back is Reversed, its amount is restored to available and total, and the account is locked |
| Scenarios.DisputeEvent | src/payment_engine.rs:179-189 | the events [Dispute] on a fresh deposit of the account's client mark it Disputed and hold its amount |
| Scenarios.ResolveEvent | src/payment_engine.rs:192-202 | the events [Dispute, Resolve] mark it Resolved and leave the account as it was |
| Scenarios.ChargebackEvent | src/payment_engine.rs:205-215 | the events [Dispute, Chargeback] mark it Reversed, remove its amount and lock the account |
| Scenarios.DoubleDispute | src/payment_engine.rs:64-74 | a deposit disputed twice and then resolved is Resolved with its amount still held once |
| EarlyRecords.Parse | src/raw_transaction.rs:15-55 | a record parses iff its tag is one of the five kinds; the type follows the tag and client, id and optional amount are copied; any other tag fails with UnsupportedType |
| EarlyRecords.Render | src/raw_transaction.rs:18-53 | every parsed transaction is the parse of the record it renders to |
| EarlyRecords.ParseIsInjective | src/raw_transaction.rs:18-53 | parsing loses nothing: a record that parses is the rendering of its result |
| EarlyAccount.DepositOutcome | src/account.rs:29-44 | an early deposit succeeds iff the type is Deposit and the client matches (the type is checked first); it adds the amount to available and total; there is no lock check |
| EarlyAccount.WithdrawOutcome | src/account.rs:46-61 | an early withdrawal succeeds iff the type is Withdrawal and the client matches; it subtracts the amount with no funds check |
| EarlyAccount.WithdrawUndoesDeposit | src/account.rs:29-61 | withdrawing what was just deposited returns the account to its earlier state |
| EarlyAccount.Overdraft | src/account.rs:124-141 | withdrawing 25.0 from a new account succeeds and leaves available and total at -25.0 |
| EarlyAccount.Account.constructor | src/account.rs:19-27 | a new early account holds nothing and is unlocked |
| EarlyAccount.Account.Deposit | src/account.rs:29-44 | the method agrees with EarlyAccount.DepositOutcome on the error and the new state |
| EarlyAccount.Account.Withdraw | src/account.rs:46-61 | the method agrees with EarlyAccount.WithdrawOutcome on the error and the new state |

## Left out

- Reading the input and writing the accounts (src/csv.rs, src/main.rs) are I/O and are not part of this model, and neither is argument handling.
- Postprocessing (src/payment_engine/postprocessing.rs), the rounding helper and the `From<Account> for RawAccount` conversion are not modelled. They map accounts to output records and round at the boundary.
- Amounts are exact integers in ten-thousandths, not `f64`. Floating-point drift, NaN and infinities are not modelled.
- The per-operation error enums (`DepositError`, `WithdrawalError`, `DisputeError` and the others) are merged into one `AccountError` with the same cases. Error message strings are not modelled. `anyhow` wrapping becomes `EngineError`.
- The early revision raises plain `anyhow!` messages (src/account.rs:37-42, 54-59; src/raw_transaction.rs:51). `EarlyAccount.AccountError` and `EarlyRecords.ParseError` name the cases of those messages; the message texts are not modelled. The early error enums of src/transaction/errors.rs are not raised by that code and are not part of this model.
- Engine.ProcessTransactions: on failure it states only the error. The source drops its accounts map then, but the status updates already made stay in the caller's table, passed as `&mut` (src/payment_engine.rs:15); those partial updates are not modelled.
- Engine.ProcessTransactions: the source mutates the table through `&mut`. The model takes the table by value and returns the updated table as an out-parameter.
- The loop of `process_transactions` is split into `ProcessEntry`, `OpenAccount` and `ProcessTransaction`. They follow the source's four `entry` branches.
- `HashMap` iteration order does not occur in the core, so maps model the hash maps without an order.
- Scenarios.DisputeEvent: the three `process_events` tests are stated as lemmas about ApplyEvents for every fresh deposit and account, not run on the method with the literal values.
- The account unit tests (src/models/account/account.rs:212-457, src/account.rs:68-160) are not worked out as scenarios, apart from the early overdraft test (`EarlyAccount.Overdraft`); the general contracts of the account operations cover their cases.
- Concurrency does not occur in the core.
