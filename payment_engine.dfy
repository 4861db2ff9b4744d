/** The second pass: replays the history, creating accounts lazily, applies
    each transaction's base operation and then its events, advances each
    transaction's status, and aborts the whole run on the first error. */
module Engine {
  import opened Common
  import opened Transactions
  import opened RawRecords
  import opened Accounts

  /** The errors that abort a run. */
  datatype EngineError =
    | FormatFailure(formatError: FormatError)
    | AccountFailure(accountError: AccountError)

  /** A transaction and the account of its client, while its events are replayed. */
  datatype Progress = Progress(transaction: Transaction, account: AccountState)

  /** The state of a run: the accounts by client id and the transaction table. */
  datatype Ledger = Ledger(accounts: map<ClientId, AccountState>, transactions: map<TxId, Transaction>)

  /** `after` is `before` with at most its status changed. */
  predicate OnlyStatusChanged(before: Transaction, after: Transaction) {
    after == before.(status := after.status)
  }

  // ---------------------------------------------------------------------
  // Events of one transaction.
  // ---------------------------------------------------------------------

  /** One event of a transaction. A dispute always acts and marks the
      transaction Disputed; a resolve or chargeback acts only on a Disputed
      transaction, which it marks Resolved or Reversed. */
  function ApplyEvent(p: Progress, e: EventType): (r: Result<Progress, AccountError>)
    ensures r.Success? ==> OnlyStatusChanged(p.transaction, r.value.transaction)
    ensures r.Success? ==> r.value.account.clientId == p.account.clientId
    ensures r.Success? ==> (Balanced(r.value.account) <==> Balanced(p.account))
    // the only error an event can raise is a client mismatch
    ensures r.Failure? ==> r.error == InvalidClientId && p.transaction.clientId != p.account.clientId
    // a dispute has no status guard: it moves the funds again every time
    ensures e == Dispute ==> (r.Success? <==> p.transaction.clientId == p.account.clientId)
    ensures e == Dispute && r.Success? ==>
      r.value.transaction.status == Disputed && r.value.account == DisputeOutcome(p.account, p.transaction, e).value
    // resolve and chargeback without an active dispute change nothing
    ensures e != Dispute && p.transaction.status != Disputed ==> r == Success(p)
    ensures e == Resolve && p.transaction.status == Disputed ==>
      && (r.Success? <==> ResolveOutcome(p.account, p.transaction, e).Success?)
      && (r.Success? ==>
            r.value.transaction.status == Resolved && r.value.account == ResolveOutcome(p.account, p.transaction, e).value)
    ensures e == Chargeback && p.transaction.status == Disputed ==>
      && (r.Success? <==> ChargebackOutcome(p.account, p.transaction, e).Success?)
      && (r.Success? ==>
            && r.value.transaction.status == Reversed
            && r.value.account == ChargebackOutcome(p.account, p.transaction, e).value
            && r.value.account.isLocked)
    ensures r.Success? && p.transaction.status != Initial ==> r.value.transaction.status != Initial
    // no event unlocks an account
    ensures r.Success? && p.account.isLocked ==> r.value.account.isLocked
  {
    var tx := p.transaction;
    match e
    case Dispute =>
      (match DisputeOutcome(p.account, tx, e)
       case Success(a) => Success(Progress(tx.(status := Disputed), a))
       case Failure(err) => Failure(err))
    case Resolve =>
      if tx.status == Disputed then
        match ResolveOutcome(p.account, tx, e)
        case Success(a) => Success(Progress(tx.(status := Resolved), a))
        case Failure(err) => Failure(err)
      else Success(p)
    case Chargeback =>
      if tx.status == Disputed then
        match ChargebackOutcome(p.account, tx, e)
        case Success(a) => Success(Progress(tx.(status := Reversed), a))
        case Failure(err) => Failure(err)
      else Success(p)
  }

  /** The events `es`, in order, stopping at the first error. */
  function ApplyEvents(p: Progress, es: seq<EventType>): (r: Result<Progress, AccountError>)
    ensures r.Success? ==> OnlyStatusChanged(p.transaction, r.value.transaction)
    ensures r.Success? ==> r.value.account.clientId == p.account.clientId
    ensures r.Success? ==> (Balanced(r.value.account) <==> Balanced(p.account))
    ensures r.Success? && p.transaction.status != Initial ==> r.value.transaction.status != Initial
    ensures r.Failure? ==> r.error == InvalidClientId
    // a locked account stays locked through the whole replay of the events
    ensures r.Success? && p.account.isLocked ==> r.value.account.isLocked
    decreases |es|
  {
    if es == [] then Success(p)
    else
      match ApplyEvents(p, es[..|es| - 1])
      case Failure(err) => Failure(err)
      case Success(q) => ApplyEvent(q, es[|es| - 1])
  }

  /** Once a prefix of the events fails, the whole list fails the same way. */
  lemma {:induction false} ApplyEventsFailureSticks(p: Progress, es: seq<EventType>, n: nat)
    requires n <= |es| && ApplyEvents(p, es[..n]).Failure?
    ensures ApplyEvents(p, es) == ApplyEvents(p, es[..n])
    decreases |es| - n
  {
    if n < |es| {
      assert es[..n + 1][..n] == es[..n];
      ApplyEventsFailureSticks(p, es, n + 1);
    } else {
      assert es[..n] == es;
    }
  }

  /** Resolve and chargeback events on a transaction that is not under
      dispute are ignored, however many there are. */
  lemma {:induction false} IgnoredWithoutDispute(p: Progress, es: seq<EventType>)
    requires p.transaction.status != Disputed
    requires forall i :: 0 <= i < |es| ==> es[i] != Dispute
    ensures ApplyEvents(p, es) == Success(p)
    decreases |es|
  {
    if es != [] {
      IgnoredWithoutDispute(p, es[..|es| - 1]);
    }
  }

  // ---------------------------------------------------------------------
  // The replay of the history.
  // ---------------------------------------------------------------------

  /** The account a transaction is booked on: its client's, or a new one. */
  function AccountFor(accounts: map<ClientId, AccountState>, clientId: ClientId): (r: AccountState)
    // a client without an account gets a new, empty, unlocked one
    ensures clientId !in accounts ==> r == Opened(clientId)
    // a client with an account books on that account
    ensures clientId in accounts ==> r == accounts[clientId]
  {
    if clientId in accounts then accounts[clientId] else Opened(clientId)
  }

  /** The base operation of a transaction. */
  function BaseOutcome(a: AccountState, tx: Transaction): (r: Result<AccountState, AccountError>)
    ensures r.Success? <==>
      && tx.clientId == a.clientId && !a.isLocked
      && (tx.transactionType == Withdrawal ==> a.available - tx.amount >= 0)
    // a deposit adds its amount to the available funds, a withdrawal takes it away
    ensures r.Success? ==>
      var delta := if tx.transactionType == Deposit then tx.amount else -tx.amount;
      && r.value.available == a.available + delta && r.value.total == a.total + delta
      && r.value.held == a.held && r.value.isLocked == a.isLocked && r.value.clientId == a.clientId
  {
    match tx.transactionType
    case Deposit => DepositOutcome(a, tx)
    case Withdrawal => WithdrawOutcome(a, tx)
  }

  /** A transaction on its account: the base operation, then the mark
      Processed, then the events in order. */
  function Book(a: AccountState, tx: Transaction): (r: Result<Progress, AccountError>)
    // a locked account books nothing
    ensures a.isLocked ==> r.Failure?
    ensures r.Success? ==> tx.clientId == a.clientId
    // only the status changes, and it ends past Initial
    ensures r.Success? ==> OnlyStatusChanged(tx, r.value.transaction) && r.value.transaction.status != Initial
    ensures r.Success? ==> r.value.account.clientId == a.clientId && (Balanced(r.value.account) <==> Balanced(a))
  {
    match BaseOutcome(a, tx)
    case Failure(e) => Failure(e)
    case Success(b) => ApplyEvents(Progress(tx.(status := Processed), b), tx.events)
  }

  /** One history entry: look the transaction up and book it on its
      client's account. */
  function ProcessOne(l: Ledger, id: TxId): (r: Result<Ledger, EngineError>)
    ensures id !in l.transactions ==> r == Failure(FormatFailure(UniqueTransactionId(id)))
  {
    if id !in l.transactions then Failure(FormatFailure(UniqueTransactionId(id)))
    else
      var tx := l.transactions[id];
      match Book(AccountFor(l.accounts, tx.clientId), tx)
      case Failure(e) => Failure(AccountFailure(e))
      case Success(p) => Success(Ledger(l.accounts[tx.clientId := p.account], l.transactions[id := p.transaction]))
  }

  /** The replay of `history` against the table, from no accounts. */
  function Replay(history: seq<TxId>, table: map<TxId, Transaction>): (r: Result<Ledger, EngineError>)
    // the table keeps its keys
    ensures r.Success? ==> r.value.transactions.Keys == table.Keys
    // the only format error is a history id that the table does not hold
    ensures r.Failure? && r.error.FormatFailure? ==>
      && r.error.formatError.UniqueTransactionId?
      && r.error.formatError.tx in history && r.error.formatError.tx !in table
    decreases |history|
  {
    if history == [] then Success(Ledger(map[], table))
    else
      match Replay(history[..|history| - 1], table)
      case Failure(e) => Failure(e)
      case Success(l) => ProcessOne(l, history[|history| - 1])
  }

  /** Every account is filed under its own client id and is balanced. */
  predicate AccountsSound(accounts: map<ClientId, AccountState>) {
    forall c :: c in accounts ==> accounts[c].clientId == c && Balanced(accounts[c])
  }

  /** The client ids of the transactions that `history` names. */
  function ClientsOf(history: seq<TxId>, table: map<TxId, Transaction>): set<ClientId> {
    set i | 0 <= i < |history| && history[i] in table :: table[history[i]].clientId
  }

  lemma ClientsOfSnoc(history: seq<TxId>, table: map<TxId, Transaction>)
    requires history != [] && history[|history| - 1] in table
    ensures ClientsOf(history, table) ==
      ClientsOf(history[..|history| - 1], table) + {table[history[|history| - 1]].clientId}
  {
    var prefix := history[..|history| - 1];
    forall c | c in ClientsOf(history, table) ensures c in ClientsOf(prefix, table) + {table[history[|history| - 1]].clientId} {
      var i :| 0 <= i < |history| && history[i] in table && table[history[i]].clientId == c;
      if i < |prefix| {
        assert prefix[i] == history[i];
      }
    }
    forall c | c in ClientsOf(prefix, table) ensures c in ClientsOf(history, table) {
      var i :| 0 <= i < |prefix| && prefix[i] in table && table[prefix[i]].clientId == c;
      assert history[i] == prefix[i];
    }
  }

  /** The ledger invariant a replay keeps against the table it started from. */
  predicate ReplayedFrom(l: Ledger, history: seq<TxId>, table: map<TxId, Transaction>) {
    && AccountsSound(l.accounts)
    && l.accounts.Keys == ClientsOf(history, table)
    && l.transactions.Keys == table.Keys
    && (forall id :: id in table ==> OnlyStatusChanged(table[id], l.transactions[id]))
    && (forall i :: 0 <= i < |history| ==> history[i] in table && l.transactions[history[i]].status != Initial)
  }

  /** One history entry keeps the ledger invariant. */
  lemma ProcessOneKeeps(l: Ledger, history: seq<TxId>, table: map<TxId, Transaction>)
    requires history != [] && ReplayedFrom(l, history[..|history| - 1], table)
    requires ProcessOne(l, history[|history| - 1]).Success?
    ensures ReplayedFrom(ProcessOne(l, history[|history| - 1]).value, history, table)
  {
    var prefix := history[..|history| - 1];
    var id := history[|history| - 1];
    var tx := l.transactions[id];
    var a := AccountFor(l.accounts, tx.clientId);
    var p := Book(a, tx).value;
    var next := Ledger(l.accounts[tx.clientId := p.account], l.transactions[id := p.transaction]);
    assert ProcessOne(l, id).value == next;
    ClientsOfSnoc(history, table);
    assert AccountsSound(next.accounts);
    assert next.accounts.Keys == ClientsOf(history, table);
    forall i | 0 <= i < |history| ensures history[i] in table && next.transactions[history[i]].status != Initial {
      if i < |prefix| {
        assert history[i] == prefix[i];
      }
    }
  }

  /** A successful replay keeps every account balanced and filed under its
      own client id, has exactly one account per client named by the
      history, changes only the statuses of the table's transactions, and
      leaves every replayed transaction past Initial. */
  lemma {:induction false} ReplayInvariant(history: seq<TxId>, table: map<TxId, Transaction>)
    requires Replay(history, table).Success?
    ensures ReplayedFrom(Replay(history, table).value, history, table)
    decreases |history|
  {
    if history != [] {
      var prefix := history[..|history| - 1];
      ReplayInvariant(prefix, table);
      ProcessOneKeeps(Replay(prefix, table).value, history, table);
    }
  }

  /** The replay of one more history entry continues from the ledger before it. */
  lemma ReplaySnoc(history: seq<TxId>, table: map<TxId, Transaction>, i: nat, l: Ledger)
    requires i < |history| && Replay(history[..i], table) == Success(l)
    ensures Replay(history[..i + 1], table) == ProcessOne(l, history[i])
  {
    assert history[..i + 1][..i] == history[..i];
  }

  /** The ledger after a history entry whose transaction books successfully. */
  lemma ProcessOneBooks(l: Ledger, id: TxId, p: Progress)
    requires id in l.transactions
    requires Book(AccountFor(l.accounts, l.transactions[id].clientId), l.transactions[id]) == Success(p)
    ensures ProcessOne(l, id) ==
      Success(Ledger(l.accounts[l.transactions[id].clientId := p.account], l.transactions[id := p.transaction]))
  {
  }

  /** The replay is the chain of its entries: ledgers `ls` that start from
      no accounts and where each entry takes one ledger to the next. */
  lemma {:induction false} ReplayChain(history: seq<TxId>, table: map<TxId, Transaction>, ls: seq<Ledger>)
    requires |ls| == |history| + 1 && ls[0] == Ledger(map[], table)
    requires forall i :: 0 <= i < |history| ==> ProcessOne(ls[i], history[i]) == Success(ls[i + 1])
    ensures Replay(history, table) == Success(ls[|history|])
    decreases |history|
  {
    if history != [] {
      var n := |history|;
      var prefix, ledgers := history[..n - 1], ls[..n];
      forall i | 0 <= i < |prefix| ensures ProcessOne(ledgers[i], prefix[i]) == Success(ledgers[i + 1]) {
        assert ledgers[i] == ls[i] && ledgers[i + 1] == ls[i + 1] && prefix[i] == history[i];
      }
      ReplayChain(prefix, table, ledgers);
      assert ProcessOne(ls[n - 1], history[n - 1]) == Success(ls[n]);
    }
  }

  /** Once a prefix of the history fails, the whole replay fails the same way. */
  lemma {:induction false} ReplayFailureSticks(history: seq<TxId>, table: map<TxId, Transaction>, n: nat)
    requires n <= |history| && Replay(history[..n], table).Failure?
    ensures Replay(history, table) == Replay(history[..n], table)
    decreases |history| - n
  {
    if n < |history| {
      assert history[..n + 1][..n] == history[..n];
      ReplayFailureSticks(history, table, n + 1);
    } else {
      assert history[..n] == history;
    }
  }

  /** A transaction of a client whose account is locked cannot be booked:
      the base operation refuses it with FrozenAccount. */
  lemma LockedEntryFails(l: Ledger, id: TxId, c: ClientId)
    requires AccountsSound(l.accounts)
    requires c in l.accounts && l.accounts[c].isLocked
    requires id in l.transactions && l.transactions[id].clientId == c
    ensures ProcessOne(l, id) == Failure(AccountFailure(FrozenAccount(c)))
  {
  }

  /** A successful history entry leaves every locked account as it was. */
  lemma ProcessOneKeepsLock(l: Ledger, id: TxId, c: ClientId)
    requires c in l.accounts && l.accounts[c].isLocked
    requires ProcessOne(l, id).Success?
    ensures c in ProcessOne(l, id).value.accounts && ProcessOne(l, id).value.accounts[c] == l.accounts[c]
  {
  }

  /** An account locked after entry `k` of the history is still locked at
      the end of any successful replay. */
  lemma {:induction false} LockStaysLocked(history: seq<TxId>, table: map<TxId, Transaction>, c: ClientId, k: nat, l: Ledger)
    requires k < |history| && Replay(history[..k + 1], table) == Success(l)
    requires c in l.accounts && l.accounts[c].isLocked
    requires Replay(history, table).Success?
    ensures c in Replay(history, table).value.accounts && Replay(history, table).value.accounts[c].isLocked
    decreases |history|
  {
    if |history| > k + 1 {
      var prefix := history[..|history| - 1];
      assert prefix[..k + 1] == history[..k + 1];
      LockStaysLocked(prefix, table, c, k, l);
      ProcessOneKeepsLock(Replay(prefix, table).value, history[|history| - 1], c);
    } else {
      assert history[..k + 1] == history;
    }
  }

  /** Locking is permanent for the run: once a client's account is locked,
      any later deposit or withdrawal of that client aborts the replay. */
  lemma {:induction false} LockedClientFails(history: seq<TxId>, table: map<TxId, Transaction>, c: ClientId, i: nat, j: nat, l: Ledger)
    requires i < j < |history|
    requires Replay(history[..i + 1], table) == Success(l)
    requires c in l.accounts && l.accounts[c].isLocked
    requires history[j] in table && table[history[j]].clientId == c
    ensures Replay(history, table).Failure?
    decreases |history|
  {
    var prefix := history[..|history| - 1];
    assert prefix[..i + 1] == history[..i + 1];
    if j < |prefix| {
      assert prefix[j] == history[j];
      LockedClientFails(prefix, table, c, i, j, l);
    } else if Replay(prefix, table).Success? {
      LockedLastEntryFails(history, table, c, i, l);
    }
  }

  /** The last entry of a history, booked on a locked client, fails with
      FrozenAccount. */
  lemma LockedLastEntryFails(history: seq<TxId>, table: map<TxId, Transaction>, c: ClientId, i: nat, l: Ledger)
    requires i < |history| - 1
    requires Replay(history[..i + 1], table) == Success(l)
    requires c in l.accounts && l.accounts[c].isLocked
    requires history[|history| - 1] in table && table[history[|history| - 1]].clientId == c
    requires Replay(history[..|history| - 1], table).Success?
    ensures Replay(history, table) == Failure(AccountFailure(FrozenAccount(c)))
  {
    var prefix := history[..|history| - 1];
    var id := history[|history| - 1];
    assert prefix[..i + 1] == history[..i + 1];
    LockStaysLocked(prefix, table, c, i, l);
    var before := Replay(prefix, table).value;
    ReplayInvariant(prefix, table);
    assert OnlyStatusChanged(table[id], before.transactions[id]);
    LockedEntryFails(before, id, c);
  }

  // ---------------------------------------------------------------------
  // The engine as the source runs it, over account objects.
  // ---------------------------------------------------------------------

  /** The account objects hold exactly the account states of `states`. */
  ghost predicate Holds(accounts: map<ClientId, Account>, states: map<ClientId, AccountState>)
    reads accounts.Values
  {
    && accounts.Keys == states.Keys
    && forall c :: c in accounts ==> accounts[c].State() == states[c]
  }

  /** No two clients share an account object. */
  ghost predicate Distinct(accounts: map<ClientId, Account>) {
    forall c, d :: c in accounts && d in accounts && c != d ==> accounts[c] != accounts[d]
  }

  /** Replays the events of `tx` on `account`, updating the status as it goes. */
  method ProcessEvents(tx: Transaction, account: Account) returns (r: Result<Transaction, AccountError>)
    modifies account
    ensures var spec := ApplyEvents(Progress(tx, old(account.State())), tx.events);
      && (r.Success? <==> spec.Success?)
      && (r.Success? ==> r.value == spec.value.transaction && account.State() == spec.value.account)
      && (r.Failure? ==> r.error == spec.error)
  {
    var current := tx;
    for i := 0 to |tx.events|
      invariant ApplyEvents(Progress(tx, old(account.State())), tx.events[..i]) == Success(Progress(current, account.State()))
    {
      assert tx.events[..i + 1][..i] == tx.events[..i];
      ghost var before := Progress(current, account.State());
      var event := tx.events[i];
      var res: Result<(), AccountError> := Success(());
      match event {
        case Dispute =>
          res := account.Dispute(current, event);
          if res.Success? {
            current := current.(status := Disputed);
          }
        case Resolve =>
          // a resolve for a transaction that is not under dispute is ignored
          if current.status == Disputed {
            res := account.Resolve(current, event);
            if res.Success? {
              current := current.(status := Resolved);
            }
          }
        case Chargeback =>
          // a chargeback for a transaction that is not under dispute is ignored
          if current.status == Disputed {
            res := account.Chargeback(current, event);
            if res.Success? {
              current := current.(status := Reversed);
            }
          }
      }
      assert ApplyEvents(Progress(tx, old(account.State())), tx.events[..i + 1]) == ApplyEvent(before, event);
      assert res.Success? ==> ApplyEvent(before, event) == Success(Progress(current, account.State()));
      if res.Failure? {
        assert ApplyEvent(before, event) == Failure(res.error);
        ApplyEventsFailureSticks(Progress(tx, old(account.State())), tx.events, i + 1);
        return Failure(res.error);
      }
    }
    assert tx.events[..|tx.events|] == tx.events;
    r := Success(current);
  }

  /** Books `tx` on its client's account: the base operation, then its events. */
  method ProcessTransaction(accounts: map<ClientId, Account>, ghost states: map<ClientId, AccountState>, tx: Transaction)
    returns (r: Result<Transaction, AccountError>)
    requires Distinct(accounts) && Holds(accounts, states) && tx.clientId in accounts
    modifies accounts[tx.clientId]
    ensures var spec := Book(states[tx.clientId], tx);
      && (r.Success? <==> spec.Success?)
      && (r.Success? ==> r.value == spec.value.transaction && Holds(accounts, states[tx.clientId := spec.value.account]))
      && (r.Failure? ==> r.error == spec.error)
  {
    var account := accounts[tx.clientId];
    var res: Result<(), AccountError>;
    match tx.transactionType {
      case Deposit => res := account.Deposit(tx);
      case Withdrawal => res := account.Withdraw(tx);
    }
    if res.Failure? {
      return Failure(res.error);
    }
    r := ProcessEvents(tx.(status := Processed), account);
    if r.Success? {
      forall c | c in accounts && c != tx.clientId ensures accounts[c].State() == states[c] {
        assert accounts[c] != account;
      }
    }
  }

  lemma UpdateTwice<K, V>(m: map<K, V>, k: K, v: V, w: V)
    ensures m[k := v][k := w] == m[k := w]
  {
  }

  /** The account of `clientId`, created and filed if the client has none yet. */
  method OpenAccount(accounts: map<ClientId, Account>, clientId: ClientId, ghost states: map<ClientId, AccountState>)
    returns (updated: map<ClientId, Account>, account: Account)
    requires Distinct(accounts) && Holds(accounts, states)
    ensures updated == accounts[clientId := account]
    ensures clientId in accounts ==> account == accounts[clientId]
    ensures clientId !in accounts ==> fresh(account)
    ensures Distinct(updated) && Holds(updated, states[clientId := AccountFor(states, clientId)])
  {
    if clientId in accounts {
      account := accounts[clientId];
      updated := accounts;
    } else {
      account := new Account(clientId);
      updated := accounts[clientId := account];
    }
  }

  /** One history entry over account objects: the transaction is looked
      up, its client's account opened if need be, and the transaction booked. */
  method ProcessEntry(accounts: map<ClientId, Account>, ghost states: map<ClientId, AccountState>,
                      transactions: map<TxId, Transaction>, id: TxId)
    returns (r: Result<map<ClientId, Account>, EngineError>, processed: map<TxId, Transaction>)
    requires Distinct(accounts) && Holds(accounts, states)
    modifies accounts.Values
    ensures var spec := ProcessOne(Ledger(states, transactions), id);
      && (r.Success? <==> spec.Success?)
      && (r.Failure? ==> r.error == spec.error)
      && (r.Success? ==>
            && Distinct(r.value)
            && Holds(r.value, spec.value.accounts)
            && processed == spec.value.transactions
            && forall c :: c in r.value ==> (c in accounts && r.value[c] == accounts[c]) || fresh(r.value[c]))
  {
    processed := transactions;
    if id !in transactions {
      return Failure(FormatFailure(UniqueTransactionId(id))), processed;
    }
    var tx := transactions[id];
    var updated, account := OpenAccount(accounts, tx.clientId, states);
    ghost var start := states[tx.clientId := AccountFor(states, tx.clientId)];
    var booked := ProcessTransaction(updated, start, tx);
    if booked.Failure? {
      return Failure(AccountFailure(booked.error)), processed;
    }
    ghost var p := Book(AccountFor(states, tx.clientId), tx).value;
    ProcessOneBooks(Ledger(states, transactions), id, p);
    processed := transactions[id := booked.value];
    UpdateTwice(states, tx.clientId, AccountFor(states, tx.clientId), p.account);
    r := Success(updated);
  }

  /** Replays `history` against `transactions` in order; a client seen for the
      first time gets a new account. Returns the accounts and the updated table. */
  method ProcessTransactions(history: seq<TxId>, transactions: map<TxId, Transaction>)
    returns (r: Result<map<ClientId, Account>, EngineError>, processed: map<TxId, Transaction>)
    ensures r.Success? <==> Replay(history, transactions).Success?
    ensures r.Failure? ==> r.error == Replay(history, transactions).error
    ensures r.Success? ==>
      && Distinct(r.value)
      && (forall c :: c in r.value ==> fresh(r.value[c]))
      && Holds(r.value, Replay(history, transactions).value.accounts)
      && processed == Replay(history, transactions).value.transactions
  {
    var accounts: map<ClientId, Account> := map[];
    ghost var states: map<ClientId, AccountState> := map[];
    processed := transactions;
    for i := 0 to |history|
      invariant Distinct(accounts)
      invariant forall c :: c in accounts ==> fresh(accounts[c])
      invariant Holds(accounts, states)
      invariant Replay(history[..i], transactions) == Success(Ledger(states, processed))
    {
      ReplaySnoc(history, transactions, i, Ledger(states, processed));
      var entry, table := ProcessEntry(accounts, states, processed, history[i]);
      if entry.Failure? {
        ReplayFailureSticks(history, transactions, i + 1);
        return Failure(entry.error), processed;
      }
      accounts, processed, states := entry.value, table, ProcessOne(Ledger(states, processed), history[i]).value.accounts;
    }
    assert history[..|history|] == history;
    r := Success(accounts);
  }
}
