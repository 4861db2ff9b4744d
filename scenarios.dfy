/** Concrete runs of the pipeline: the examples the unit tests of the
    engine, the first pass and the event replay pin down. Amounts are in
    ten-thousandths: 10000 is 1.0. */
module Scenarios {
  import opened Common
  import opened Transactions
  import opened RawRecords
  import opened Accounts
  import opened Preprocessing
  import opened Engine
  import opened Pipeline

  // ---------------------------------------------------------------------
  // Step lemmas for concrete runs.
  // ---------------------------------------------------------------------

  /** A deposit record with an amount validates to a fresh deposit. */
  lemma CheckDeposit(raw: RawTransaction, client: ClientId, id: TxId, amount: Amount)
    requires raw == RawTransaction("deposit", client, id, Some(amount))
    ensures Check(raw) == Success(TransactionItem(NewTransaction(Deposit, client, id, amount)))
  {
  }

  /** A withdrawal record with an amount validates to a fresh withdrawal. */
  lemma CheckWithdrawal(raw: RawTransaction, client: ClientId, id: TxId, amount: Amount)
    requires raw == RawTransaction("withdrawal", client, id, Some(amount))
    ensures Check(raw) == Success(TransactionItem(NewTransaction(Withdrawal, client, id, amount)))
  {
  }

  /** An event record without an amount validates to that event. */
  lemma CheckEvent(raw: RawTransaction, e: EventType, client: ClientId, id: TxId)
    requires raw == RawTransaction(EventTag(e), client, id, None)
    ensures Check(raw) == Success(EventItem(TransactionEvent(e, client, id)))
  {
  }

  /** A valid transaction record with a new id is appended and filed. */
  lemma StepAdds(t: Tables, raw: RawTransaction, tx: Transaction)
    requires Check(raw) == Success(TransactionItem(tx)) && tx.transactionId !in t.transactions
    ensures Step(t, raw) == Success(Tables(t.history + [tx.transactionId], t.transactions[tx.transactionId := tx]))
  {
  }

  /** A valid event of a known transaction of its own client is folded onto it. */
  lemma StepFolds(t: Tables, raw: RawTransaction, e: TransactionEvent)
    requires Check(raw) == Success(EventItem(e)) && Accepts(t.transactions, e)
    ensures var target := t.transactions[e.transactionId];
      Step(t, raw) == Success(Tables(t.history, t.transactions[e.transactionId := target.(events := target.events + [e.eventType])]))
  {
  }

  /** A history entry whose transaction has no events is just its base operation. */
  lemma PlainStep(l: Ledger, id: TxId, tx: Transaction, b: AccountState, next: Ledger)
    requires id in l.transactions && l.transactions[id] == tx && tx.events == []
    requires BaseOutcome(AccountFor(l.accounts, tx.clientId), tx) == Success(b)
    requires next.accounts == l.accounts[tx.clientId := b]
    requires next.transactions == l.transactions[id := tx.(status := Processed)]
    ensures ProcessOne(l, id) == Success(next)
  {
    assert Book(AccountFor(l.accounts, tx.clientId), tx) == Success(Progress(tx.(status := Processed), b));
  }

  // ---------------------------------------------------------------------
  // The first pass over deposits and withdrawals, with and without a
  // dispute and a chargeback on transaction 4.
  // ---------------------------------------------------------------------

  const Deposits: seq<RawTransaction> := [
    RawTransaction("deposit", 1, 1, Some(10000)),
    RawTransaction("deposit", 2, 2, Some(20000)),
    RawTransaction("deposit", 1, 3, Some(20000)),
    RawTransaction("withdrawal", 1, 4, Some(15000)),
    RawTransaction("withdrawal", 2, 5, Some(20000))
  ]

  const Disputed: seq<RawTransaction> := [
    RawTransaction("deposit", 1, 1, Some(10000)),
    RawTransaction("deposit", 2, 2, Some(20000)),
    RawTransaction("deposit", 1, 3, Some(20000)),
    RawTransaction("withdrawal", 1, 4, Some(15000)),
    RawTransaction("dispute", 1, 4, None),
    RawTransaction("chargeback", 1, 4, None),
    RawTransaction("withdrawal", 2, 5, Some(20000))
  ]

  /** The tables after the first `k` transaction records (k at most 5) of
      either input; `four` is the entry of transaction 4 with whatever
      events have been folded onto it so far. */
  function Filed(k: nat, four: Transaction): Tables
    requires k <= 5
  {
    if k == 0 then Tables([], map[])
    else if k == 1 then Tables([1], map[1 := NewTransaction(Deposit, 1, 1, 10000)])
    else if k == 2 then Tables([1, 2], map[1 := NewTransaction(Deposit, 1, 1, 10000), 2 := NewTransaction(Deposit, 2, 2, 20000)])
    else if k == 3 then
      Tables([1, 2, 3], map[1 := NewTransaction(Deposit, 1, 1, 10000), 2 := NewTransaction(Deposit, 2, 2, 20000), 3 := NewTransaction(Deposit, 1, 3, 20000)])
    else if k == 4 then
      Tables([1, 2, 3, 4], map[1 := NewTransaction(Deposit, 1, 1, 10000), 2 := NewTransaction(Deposit, 2, 2, 20000), 3 := NewTransaction(Deposit, 1, 3, 20000),
                               4 := four])
    else
      Tables([1, 2, 3, 4, 5], map[1 := NewTransaction(Deposit, 1, 1, 10000), 2 := NewTransaction(Deposit, 2, 2, 20000), 3 := NewTransaction(Deposit, 1, 3, 20000),
                                  4 := four, 5 := NewTransaction(Withdrawal, 2, 5, 20000)])
  }

  lemma FileStep1(four: Transaction, raw: RawTransaction)
    requires raw == RawTransaction("deposit", 1, 1, Some(10000))
    ensures Step(Filed(0, four), raw) == Success(Filed(1, four))
  {
    CheckDeposit(raw, 1, 1, 10000);
    StepAdds(Filed(0, four), raw, NewTransaction(Deposit, 1, 1, 10000));
    assert Filed(0, four).history + [1] == [1];
  }

  lemma FileStep2(four: Transaction, raw: RawTransaction)
    requires raw == RawTransaction("deposit", 2, 2, Some(20000))
    ensures Step(Filed(1, four), raw) == Success(Filed(2, four))
  {
    CheckDeposit(raw, 2, 2, 20000);
    StepAdds(Filed(1, four), raw, NewTransaction(Deposit, 2, 2, 20000));
    assert Filed(1, four).history + [2] == [1, 2];
  }

  lemma FileStep3(four: Transaction, raw: RawTransaction)
    requires raw == RawTransaction("deposit", 1, 3, Some(20000))
    ensures Step(Filed(2, four), raw) == Success(Filed(3, four))
  {
    CheckDeposit(raw, 1, 3, 20000);
    StepAdds(Filed(2, four), raw, NewTransaction(Deposit, 1, 3, 20000));
    assert Filed(2, four).history + [3] == [1, 2, 3];
  }

  lemma FileStep4(four: Transaction, raw: RawTransaction)
    requires four == NewTransaction(Withdrawal, 1, 4, 15000)
    requires raw == RawTransaction("withdrawal", 1, 4, Some(15000))
    ensures Step(Filed(3, four), raw) == Success(Filed(4, four))
  {
    CheckWithdrawal(raw, 1, 4, 15000);
    StepAdds(Filed(3, four), raw, four);
    assert Filed(3, four).history + [4] == [1, 2, 3, 4];
  }

  lemma FileStep5(four: Transaction, raw: RawTransaction)
    requires raw == RawTransaction("withdrawal", 2, 5, Some(20000))
    ensures Step(Filed(4, four), raw) == Success(Filed(5, four))
  {
    CheckWithdrawal(raw, 2, 5, 20000);
    StepAdds(Filed(4, four), raw, NewTransaction(Withdrawal, 2, 5, 20000));
    assert Filed(4, four).history + [5] == [1, 2, 3, 4, 5];
  }

  /** An event of client 1 on transaction 4 is appended to its events and
      leaves the history alone. */
  lemma FoldStep(four: Transaction, raw: RawTransaction, e: EventType)
    requires four.clientId == 1
    requires raw == RawTransaction(EventTag(e), 1, 4, None)
    ensures Step(Filed(4, four), raw) == Success(Filed(4, four.(events := four.events + [e])))
  {
    CheckEvent(raw, e, 1, 4);
    StepFolds(Filed(4, four), raw, TransactionEvent(e, 1, 4));
    assert Filed(4, four).transactions[4 := four.(events := four.events + [e])] ==
      Filed(4, four.(events := four.events + [e])).transactions;
  }

  const DepositsTable: map<TxId, Transaction> := map[
      1 := Transaction(Deposit, 1, 1, 10000, [], Initial),
      2 := Transaction(Deposit, 2, 2, 20000, [], Initial),
      3 := Transaction(Deposit, 1, 3, 20000, [], Initial),
      4 := Transaction(Withdrawal, 1, 4, 15000, [], Initial),
      5 := Transaction(Withdrawal, 2, 5, 20000, [], Initial)]

  const DisputedTable: map<TxId, Transaction> := map[
      1 := Transaction(Deposit, 1, 1, 10000, [], Initial),
      2 := Transaction(Deposit, 2, 2, 20000, [], Initial),
      3 := Transaction(Deposit, 1, 3, 20000, [], Initial),
      4 := Transaction(Withdrawal, 1, 4, 15000, [Dispute, Chargeback], Initial),
      5 := Transaction(Withdrawal, 2, 5, 20000, [], Initial)]

  /** The tables the first pass over `Deposits` passes through. */
  function DepositsTables(four: Transaction): seq<Tables> {
    [Filed(0, four), Filed(1, four), Filed(2, four), Filed(3, four), Filed(4, four), Filed(5, four)]
  }

  /** The tables the first pass over `Disputed` passes through. */
  function DisputedTables(four: Transaction): seq<Tables> {
    [Filed(0, four), Filed(1, four), Filed(2, four), Filed(3, four), Filed(4, four),
     Filed(4, four.(events := [Dispute])), Filed(4, four.(events := [Dispute, Chargeback])),
     Filed(5, four.(events := [Dispute, Chargeback]))]
  }

  lemma DepositsFiled(raws: seq<RawTransaction>, four: Transaction)
    requires raws == Deposits && four == NewTransaction(Withdrawal, 1, 4, 15000)
    ensures var ts := DepositsTables(four);
      |ts| == |raws| + 1 && forall i :: 0 <= i < |raws| ==> Step(ts[i], raws[i]) == Success(ts[i + 1])
  {
    var ts := DepositsTables(four);
    forall i | 0 <= i < |raws| ensures Step(ts[i], raws[i]) == Success(ts[i + 1]) {
      if i == 0 { FileStep1(four, raws[0]); }
      else if i == 1 { FileStep2(four, raws[1]); }
      else if i == 2 { FileStep3(four, raws[2]); }
      else if i == 3 { FileStep4(four, raws[3]); }
      else { FileStep5(four, raws[4]); }
    }
  }

  lemma DisputedFiled(raws: seq<RawTransaction>, four: Transaction)
    requires raws == Disputed && four == NewTransaction(Withdrawal, 1, 4, 15000)
    ensures var ts := DisputedTables(four);
      |ts| == |raws| + 1 && forall i :: 0 <= i < |raws| ==> Step(ts[i], raws[i]) == Success(ts[i + 1])
  {
    var ts := DisputedTables(four);
    forall i | 0 <= i < |raws| ensures Step(ts[i], raws[i]) == Success(ts[i + 1]) {
      if i == 0 { FileStep1(four, raws[0]); }
      else if i == 1 { FileStep2(four, raws[1]); }
      else if i == 2 { FileStep3(four, raws[2]); }
      else if i == 3 { FileStep4(four, raws[3]); }
      else if i == 4 {
        FoldStep(four, raws[4], Dispute);
        assert four.events + [Dispute] == [Dispute];
      } else if i == 5 {
        FoldStep(four.(events := [Dispute]), raws[5], Chargeback);
        assert [Dispute] + [Chargeback] == [Dispute, Chargeback];
      }
      else { FileStep5(four.(events := [Dispute, Chargeback]), raws[6]); }
    }
  }

  /** The first pass files the five transaction records in input order. */
  lemma PreprocessDeposits(raws: seq<RawTransaction>)
    requires raws == Deposits
    ensures PreprocessSpec(raws) == Success(Tables([1, 2, 3, 4, 5], DepositsTable))
  {
    var ts := DepositsTables(NewTransaction(Withdrawal, 1, 4, 15000));
    DepositsFiled(raws, NewTransaction(Withdrawal, 1, 4, 15000));
    PreprocessChain(raws, ts);
    assert ts[5].transactions == DepositsTable;
  }

  /** The dispute and the chargeback of transaction 4 are folded onto it, in
      order, and never enter the history. */
  lemma PreprocessDisputed(raws: seq<RawTransaction>)
    requires raws == Disputed
    ensures PreprocessSpec(raws) == Success(Tables([1, 2, 3, 4, 5], DisputedTable))
  {
    var ts := DisputedTables(NewTransaction(Withdrawal, 1, 4, 15000));
    DisputedFiled(raws, NewTransaction(Withdrawal, 1, 4, 15000));
    PreprocessChain(raws, ts);
    DisputedTablesEnd(NewTransaction(Withdrawal, 1, 4, 15000));
  }

  lemma DisputedTablesEnd(four: Transaction)
    requires four == NewTransaction(Withdrawal, 1, 4, 15000)
    ensures DisputedTables(four)[7] == Tables([1, 2, 3, 4, 5], DisputedTable)
  {
    assert DisputedTables(four)[7].transactions == DisputedTable;
  }

  // ---------------------------------------------------------------------
  // The replays of those two histories.
  // ---------------------------------------------------------------------
  /** The ledger after the first `k` deposits (k at most 3) of either
      history; `four` is the table entry of transaction 4, not yet booked. */
  function Opening(k: nat, four: Transaction): Ledger
    requires k <= 3
  {
    if k == 0 then
      Ledger(map[], map[
        1 := Transaction(Deposit, 1, 1, 10000, [], Initial),
        2 := Transaction(Deposit, 2, 2, 20000, [], Initial),
        3 := Transaction(Deposit, 1, 3, 20000, [], Initial),
        4 := four,
        5 := Transaction(Withdrawal, 2, 5, 20000, [], Initial)])
    else if k == 1 then
      Ledger(map[1 := AccountState(1, 10000, 0, 10000, false)], map[
        1 := Transaction(Deposit, 1, 1, 10000, [], Processed),
        2 := Transaction(Deposit, 2, 2, 20000, [], Initial),
        3 := Transaction(Deposit, 1, 3, 20000, [], Initial),
        4 := four,
        5 := Transaction(Withdrawal, 2, 5, 20000, [], Initial)])
    else if k == 2 then
      Ledger(map[1 := AccountState(1, 10000, 0, 10000, false), 2 := AccountState(2, 20000, 0, 20000, false)], map[
        1 := Transaction(Deposit, 1, 1, 10000, [], Processed),
        2 := Transaction(Deposit, 2, 2, 20000, [], Processed),
        3 := Transaction(Deposit, 1, 3, 20000, [], Initial),
        4 := four,
        5 := Transaction(Withdrawal, 2, 5, 20000, [], Initial)])
    else
      Ledger(map[1 := AccountState(1, 30000, 0, 30000, false), 2 := AccountState(2, 20000, 0, 20000, false)], map[
        1 := Transaction(Deposit, 1, 1, 10000, [], Processed),
        2 := Transaction(Deposit, 2, 2, 20000, [], Processed),
        3 := Transaction(Deposit, 1, 3, 20000, [], Processed),
        4 := four,
        5 := Transaction(Withdrawal, 2, 5, 20000, [], Initial)])
  }

  lemma OpeningStep1(four: Transaction)
    ensures ProcessOne(Opening(0, four), 1) == Success(Opening(1, four))
  {
    PlainStep(Opening(0, four), 1, NewTransaction(Deposit, 1, 1, 10000), AccountState(1, 10000, 0, 10000, false), Opening(1, four));
  }

  lemma OpeningStep2(four: Transaction)
    ensures ProcessOne(Opening(1, four), 2) == Success(Opening(2, four))
  {
    PlainStep(Opening(1, four), 2, NewTransaction(Deposit, 2, 2, 20000), AccountState(2, 20000, 0, 20000, false), Opening(2, four));
  }

  lemma OpeningStep3(four: Transaction)
    ensures ProcessOne(Opening(2, four), 3) == Success(Opening(3, four))
  {
    PlainStep(Opening(2, four), 3, NewTransaction(Deposit, 1, 3, 20000), AccountState(1, 30000, 0, 30000, false), Opening(3, four));
  }

  /** The ledger once all three deposits are booked and both clients have
      an account; `four` and `five` are the entries of the two withdrawals. */
  function Closing(one: AccountState, two: AccountState, four: Transaction, five: Transaction): Ledger {
    Ledger(map[1 := one, 2 := two], map[
      1 := Transaction(Deposit, 1, 1, 10000, [], Processed),
      2 := Transaction(Deposit, 2, 2, 20000, [], Processed),
      3 := Transaction(Deposit, 1, 3, 20000, [], Processed),
      4 := four,
      5 := five])
  }

  lemma DepositsStep4(four: Transaction)
    requires four == NewTransaction(Withdrawal, 1, 4, 15000)
    ensures ProcessOne(Opening(3, four), 4) ==
      Success(Closing(AccountState(1, 15000, 0, 15000, false), AccountState(2, 20000, 0, 20000, false),
                      four.(status := Processed), NewTransaction(Withdrawal, 2, 5, 20000)))
  {
    PlainStep(Opening(3, four), 4, four, AccountState(1, 15000, 0, 15000, false),
      Closing(AccountState(1, 15000, 0, 15000, false), AccountState(2, 20000, 0, 20000, false),
              four.(status := Processed), NewTransaction(Withdrawal, 2, 5, 20000)));
  }

  /** Booking client 2's withdrawal 5 on a closing ledger updates only
      client 2's account and entry 5. */
  lemma ClosingUpdate(one: AccountState, two: AccountState, two': AccountState, four: Transaction, five: Transaction, five': Transaction)
    ensures Closing(one, two, four, five).accounts[2 := two'] == Closing(one, two', four, five').accounts
    ensures Closing(one, two, four, five).transactions[5 := five'] == Closing(one, two', four, five').transactions
  {
  }

  /** A plain transaction 5 of client 2 booked on a closing ledger. */
  lemma ClosingStep(one: AccountState, two: AccountState, b: AccountState, four: Transaction, five: Transaction)
    requires five.clientId == 2 && five.events == []
    requires BaseOutcome(two, five) == Success(b)
    ensures ProcessOne(Closing(one, two, four, five), 5) == Success(Closing(one, b, four, five.(status := Processed)))
  {
    var l := Closing(one, two, four, five);
    assert AccountFor(l.accounts, 2) == two;
    ClosingUpdate(one, two, b, four, five, five.(status := Processed));
    PlainStep(l, 5, five, b, Closing(one, b, four, five.(status := Processed)));
  }

  /** Client 2 withdraws everything it deposited. */
  lemma LastStep(one: AccountState, four: Transaction, five: Transaction)
    requires five == NewTransaction(Withdrawal, 2, 5, 20000)
    ensures ProcessOne(Closing(one, AccountState(2, 20000, 0, 20000, false), four, five), 5) ==
      Success(Closing(one, AccountState(2, 0, 0, 0, false), four, five.(status := Processed)))
  {
    DrainTwo(five);
    ClosingStep(one, AccountState(2, 20000, 0, 20000, false), AccountState(2, 0, 0, 0, false), four, five);
  }

  /** Withdrawal 5 takes client 2's whole balance. */
  lemma DrainTwo(five: Transaction)
    requires five == NewTransaction(Withdrawal, 2, 5, 20000)
    ensures BaseOutcome(AccountState(2, 20000, 0, 20000, false), five) == Success(AccountState(2, 0, 0, 0, false))
  {
  }

  /** Withdrawal 4 is booked, then disputed, which moves its amount back
      from held to available, then charged back, which locks the account. */
  lemma DisputedBook(four: Transaction)
    requires four == Transaction(Withdrawal, 1, 4, 15000, [Dispute, Chargeback], Initial)
    ensures Book(AccountState(1, 30000, 0, 30000, false), four) ==
      Success(Progress(four.(status := Reversed), AccountState(1, 30000, 0, 30000, true)))
  {
    var a := AccountState(1, 15000, 0, 15000, false);
    assert BaseOutcome(AccountState(1, 30000, 0, 30000, false), four) == Success(a);
    WithdrawalChargeback(four.(status := Processed), a);
  }

  /** A disputed withdrawal that is charged back restores its amount to the
      account and locks it. */
  lemma WithdrawalChargeback(tx: Transaction, s: AccountState)
    requires tx.transactionType == Withdrawal && tx.clientId == s.clientId && tx.events == [Dispute, Chargeback]
    ensures ApplyEvents(Progress(tx, s), tx.events) ==
      Success(Progress(tx.(status := Reversed),
                       s.(available := s.available + tx.amount, total := s.total + tx.amount, isLocked := true)))
  {
    var disputed := Progress(tx.(status := TransactionStatus.Disputed),
                             s.(available := s.available + tx.amount, held := s.held - tx.amount));
    assert ApplyEvent(Progress(tx, s), Dispute) == Success(disputed);
    assert [Dispute][..0] == [];
    assert ApplyEvents(Progress(tx, s), [Dispute]) == Success(disputed);
    assert tx.events[..1] == [Dispute];
  }

  /** Booking transaction 4 of client 1 on the ledger after the three
      deposits updates only client 1's account and entry 4. */
  lemma FourthStep(four: Transaction, p: Progress)
    requires four.clientId == 1
    requires Book(AccountState(1, 30000, 0, 30000, false), four) == Success(p)
    ensures ProcessOne(Opening(3, four), 4) ==
      Success(Closing(p.account, AccountState(2, 20000, 0, 20000, false), p.transaction, NewTransaction(Withdrawal, 2, 5, 20000)))
  {
    var l := Opening(3, four);
    assert l.transactions[4] == four;
    assert AccountFor(l.accounts, 1) == AccountState(1, 30000, 0, 30000, false);
    ProcessOneBooks(l, 4, p);
    assert l.accounts[1 := p.account] == Closing(p.account, AccountState(2, 20000, 0, 20000, false), p.transaction, NewTransaction(Withdrawal, 2, 5, 20000)).accounts;
    assert l.transactions[4 := p.transaction] ==
      Closing(p.account, AccountState(2, 20000, 0, 20000, false), p.transaction, NewTransaction(Withdrawal, 2, 5, 20000)).transactions;
  }

  lemma DisputedStep4(four: Transaction)
    requires four == Transaction(Withdrawal, 1, 4, 15000, [Dispute, Chargeback], Initial)
    ensures ProcessOne(Opening(3, four), 4) ==
      Success(Closing(AccountState(1, 30000, 0, 30000, true), AccountState(2, 20000, 0, 20000, false),
                      four.(status := Reversed), NewTransaction(Withdrawal, 2, 5, 20000)))
  {
    DisputedBook(four);
    FourthStep(four, Progress(four.(status := Reversed), AccountState(1, 30000, 0, 30000, true)));
  }

  /** The ledgers the deposits-and-withdrawals history passes through, with
      `four` the unbooked withdrawal 4 and `one` client 1 after it. */
  function DepositsLedgers(four: Transaction, one: AccountState): seq<Ledger> {
    [Opening(0, four), Opening(1, four), Opening(2, four), Opening(3, four),
     Closing(one, AccountState(2, 20000, 0, 20000, false), four.(status := Processed), NewTransaction(Withdrawal, 2, 5, 20000)),
     Closing(one, AccountState(2, 0, 0, 0, false), four.(status := Processed), NewTransaction(Withdrawal, 2, 5, 20000).(status := Processed))]
  }

  /** The ledgers the disputed history passes through. */
  function DisputedLedgers(four: Transaction, one: AccountState): seq<Ledger> {
    [Opening(0, four), Opening(1, four), Opening(2, four), Opening(3, four),
     Closing(one, AccountState(2, 20000, 0, 20000, false), four.(status := Reversed), NewTransaction(Withdrawal, 2, 5, 20000)),
     Closing(one, AccountState(2, 0, 0, 0, false), four.(status := Reversed), NewTransaction(Withdrawal, 2, 5, 20000).(status := Processed))]
  }

  lemma DepositsAt0(h: seq<TxId>, four: Transaction, one: AccountState)
    requires h == [1, 2, 3, 4, 5] && four == NewTransaction(Withdrawal, 1, 4, 15000) && one == AccountState(1, 15000, 0, 15000, false)
    ensures var ls := DepositsLedgers(four, one);
      forall i :: i == 0 ==> ProcessOne(ls[i], h[i]) == Success(ls[i + 1])
  {
    OpeningStep1(four);
  }

  lemma DepositsAt1(h: seq<TxId>, four: Transaction, one: AccountState)
    requires h == [1, 2, 3, 4, 5] && four == NewTransaction(Withdrawal, 1, 4, 15000) && one == AccountState(1, 15000, 0, 15000, false)
    ensures var ls := DepositsLedgers(four, one);
      forall i :: i == 1 ==> ProcessOne(ls[i], h[i]) == Success(ls[i + 1])
  {
    OpeningStep2(four);
  }

  lemma DepositsAt2(h: seq<TxId>, four: Transaction, one: AccountState)
    requires h == [1, 2, 3, 4, 5] && four == NewTransaction(Withdrawal, 1, 4, 15000) && one == AccountState(1, 15000, 0, 15000, false)
    ensures var ls := DepositsLedgers(four, one);
      forall i :: i == 2 ==> ProcessOne(ls[i], h[i]) == Success(ls[i + 1])
  {
    OpeningStep3(four);
  }

  lemma DepositsAt3(h: seq<TxId>, four: Transaction, one: AccountState)
    requires h == [1, 2, 3, 4, 5] && four == NewTransaction(Withdrawal, 1, 4, 15000) && one == AccountState(1, 15000, 0, 15000, false)
    ensures var ls := DepositsLedgers(four, one);
      forall i :: i == 3 ==> ProcessOne(ls[i], h[i]) == Success(ls[i + 1])
  {
    DepositsStep4(four);
  }

  lemma DepositsAt4(h: seq<TxId>, four: Transaction, one: AccountState)
    requires h == [1, 2, 3, 4, 5] && four == NewTransaction(Withdrawal, 1, 4, 15000) && one == AccountState(1, 15000, 0, 15000, false)
    ensures var ls := DepositsLedgers(four, one);
      forall i :: i == 4 ==> ProcessOne(ls[i], h[i]) == Success(ls[i + 1])
  {
    var ls := DepositsLedgers(four, one);
    var five := NewTransaction(Withdrawal, 2, 5, 20000);
    assert ls[4] == Closing(one, AccountState(2, 20000, 0, 20000, false), four.(status := Processed), five);
    assert ls[5] == Closing(one, AccountState(2, 0, 0, 0, false), four.(status := Processed), five.(status := Processed));
    LastStep(one, four.(status := Processed), five);
  }

  lemma DisputedAt0(h: seq<TxId>, four: Transaction, one: AccountState)
    requires h == [1, 2, 3, 4, 5] && four == Transaction(Withdrawal, 1, 4, 15000, [Dispute, Chargeback], Initial)
    requires one == AccountState(1, 30000, 0, 30000, true)
    ensures var ls := DisputedLedgers(four, one);
      forall i :: i == 0 ==> ProcessOne(ls[i], h[i]) == Success(ls[i + 1])
  {
    OpeningStep1(four);
  }

  lemma DisputedAt1(h: seq<TxId>, four: Transaction, one: AccountState)
    requires h == [1, 2, 3, 4, 5] && four == Transaction(Withdrawal, 1, 4, 15000, [Dispute, Chargeback], Initial)
    requires one == AccountState(1, 30000, 0, 30000, true)
    ensures var ls := DisputedLedgers(four, one);
      forall i :: i == 1 ==> ProcessOne(ls[i], h[i]) == Success(ls[i + 1])
  {
    OpeningStep2(four);
  }

  lemma DisputedAt2(h: seq<TxId>, four: Transaction, one: AccountState)
    requires h == [1, 2, 3, 4, 5] && four == Transaction(Withdrawal, 1, 4, 15000, [Dispute, Chargeback], Initial)
    requires one == AccountState(1, 30000, 0, 30000, true)
    ensures var ls := DisputedLedgers(four, one);
      forall i :: i == 2 ==> ProcessOne(ls[i], h[i]) == Success(ls[i + 1])
  {
    OpeningStep3(four);
  }

  lemma DisputedAt3(h: seq<TxId>, four: Transaction, one: AccountState)
    requires h == [1, 2, 3, 4, 5] && four == Transaction(Withdrawal, 1, 4, 15000, [Dispute, Chargeback], Initial)
    requires one == AccountState(1, 30000, 0, 30000, true)
    ensures var ls := DisputedLedgers(four, one);
      forall i :: i == 3 ==> ProcessOne(ls[i], h[i]) == Success(ls[i + 1])
  {
    DisputedStep4(four);
  }

  lemma DisputedAt4(h: seq<TxId>, four: Transaction, one: AccountState)
    requires h == [1, 2, 3, 4, 5] && four == Transaction(Withdrawal, 1, 4, 15000, [Dispute, Chargeback], Initial)
    requires one == AccountState(1, 30000, 0, 30000, true)
    ensures var ls := DisputedLedgers(four, one);
      forall i :: i == 4 ==> ProcessOne(ls[i], h[i]) == Success(ls[i + 1])
  {
    LastStep(one, four.(status := Reversed), NewTransaction(Withdrawal, 2, 5, 20000));
  }

  lemma DepositsSteps(h: seq<TxId>, four: Transaction, one: AccountState)
    requires h == [1, 2, 3, 4, 5] && four == NewTransaction(Withdrawal, 1, 4, 15000) && one == AccountState(1, 15000, 0, 15000, false)
    ensures var ls := DepositsLedgers(four, one);
      |ls| == |h| + 1 && forall i :: 0 <= i < |h| ==> ProcessOne(ls[i], h[i]) == Success(ls[i + 1])
  {
    DepositsAt0(h, four, one);
    DepositsAt1(h, four, one);
    DepositsAt2(h, four, one);
    DepositsAt3(h, four, one);
    DepositsAt4(h, four, one);
  }

  lemma DisputedSteps(h: seq<TxId>, four: Transaction, one: AccountState)
    requires h == [1, 2, 3, 4, 5] && four == Transaction(Withdrawal, 1, 4, 15000, [Dispute, Chargeback], Initial)
    requires one == AccountState(1, 30000, 0, 30000, true)
    ensures var ls := DisputedLedgers(four, one);
      |ls| == |h| + 1 && forall i :: 0 <= i < |h| ==> ProcessOne(ls[i], h[i]) == Success(ls[i + 1])
  {
    DisputedAt0(h, four, one);
    DisputedAt1(h, four, one);
    DisputedAt2(h, four, one);
    DisputedAt3(h, four, one);
    DisputedAt4(h, four, one);
  }

  /** The deposits-and-withdrawals history replays to both withdrawals booked. */
  lemma ReplayDeposits()
    ensures Replay([1, 2, 3, 4, 5], DepositsTable) ==
      Success(DepositsLedgers(NewTransaction(Withdrawal, 1, 4, 15000), AccountState(1, 15000, 0, 15000, false))[5])
  {
    var ls := DepositsLedgers(NewTransaction(Withdrawal, 1, 4, 15000), AccountState(1, 15000, 0, 15000, false));
    DepositsSteps([1, 2, 3, 4, 5], NewTransaction(Withdrawal, 1, 4, 15000), AccountState(1, 15000, 0, 15000, false));
    assert ls[0] == Ledger(map[], DepositsTable);
    ReplayChain([1, 2, 3, 4, 5], DepositsTable, ls);
  }

  /** The disputed history replays to withdrawal 4 reversed and client 1 locked. */
  lemma ReplayDisputed()
    ensures Replay([1, 2, 3, 4, 5], DisputedTable) ==
      Success(DisputedLedgers(DisputedTable[4], AccountState(1, 30000, 0, 30000, true))[5])
  {
    var ls := DisputedLedgers(DisputedTable[4], AccountState(1, 30000, 0, 30000, true));
    DisputedSteps([1, 2, 3, 4, 5], DisputedTable[4], AccountState(1, 30000, 0, 30000, true));
    assert ls[0] == Ledger(map[], DisputedTable);
    ReplayChain([1, 2, 3, 4, 5], DisputedTable, ls);
  }

  // ---------------------------------------------------------------------
  // Whole runs.
  // ---------------------------------------------------------------------

  /** Deposits of 1.0 and 2.0 and a withdrawal of 1.5 leave client 1 with
      1.5; client 2 deposits 2.0 and withdraws all of it. */
  lemma RunDeposits()
    ensures Run(Deposits).Success?
    ensures Run(Deposits).value.accounts ==
      map[1 := AccountState(1, 15000, 0, 15000, false), 2 := AccountState(2, 0, 0, 0, false)]
  {
    PreprocessDeposits(Deposits);
    ReplayDeposits();
  }

  /** With a dispute and a chargeback of the withdrawal of 1.5, client 1
      gets the 1.5 back and its account is locked. */
  lemma RunDisputed()
    ensures Run(Disputed).Success?
    ensures Run(Disputed).value.accounts ==
      map[1 := AccountState(1, 30000, 0, 30000, true), 2 := AccountState(2, 0, 0, 0, false)]
    ensures 4 in Run(Disputed).value.transactions && Run(Disputed).value.transactions[4].status == Reversed
  {
    PreprocessDisputed(Disputed);
    ReplayDisputed();
  }

  // ---------------------------------------------------------------------
  // Events replayed on a deposit of the account's own client that has not
  // been booked yet, as the event tests of the engine do for a deposit of
  // 1.0 to a new account.
  // ---------------------------------------------------------------------

  /** A dispute holds the deposited amount and marks the deposit disputed. */
  lemma DisputeEvent(tx: Transaction, s: AccountState)
    requires tx.transactionType == Deposit && tx.clientId == s.clientId
    requires tx.status == Initial && tx.events == [Dispute]
    ensures ApplyEvents(Progress(tx, s), tx.events) ==
      Success(Progress(tx.(status := TransactionStatus.Disputed),
                       s.(available := s.available - tx.amount, held := s.held + tx.amount)))
  {
    assert tx.events[..0] == [];
  }

  /** A resolve after the dispute releases the hold again: the account is
      back where it started. */
  lemma ResolveEvent(tx: Transaction, s: AccountState)
    requires tx.transactionType == Deposit && tx.clientId == s.clientId
    requires tx.status == Initial && tx.events == [Dispute, Resolve]
    ensures ApplyEvents(Progress(tx, s), tx.events) == Success(Progress(tx.(status := Resolved), s))
  {
    var disputed := Progress(tx.(status := TransactionStatus.Disputed),
                             s.(available := s.available - tx.amount, held := s.held + tx.amount));
    assert ApplyEvent(Progress(tx, s), Dispute) == Success(disputed);
    assert [Dispute][..0] == [];
    assert ApplyEvents(Progress(tx, s), [Dispute]) == Success(disputed);
    assert tx.events[..1] == [Dispute];
  }

  /** A chargeback after the dispute removes the held amount from the
      account and locks it. */
  lemma ChargebackEvent(tx: Transaction, s: AccountState)
    requires tx.transactionType == Deposit && tx.clientId == s.clientId
    requires tx.status == Initial && tx.events == [Dispute, Chargeback]
    ensures ApplyEvents(Progress(tx, s), tx.events) ==
      Success(Progress(tx.(status := Reversed),
                       s.(available := s.available - tx.amount, total := s.total - tx.amount, isLocked := true)))
  {
    var disputed := Progress(tx.(status := TransactionStatus.Disputed),
                             s.(available := s.available - tx.amount, held := s.held + tx.amount));
    assert ApplyEvent(Progress(tx, s), Dispute) == Success(disputed);
    assert [Dispute][..0] == [];
    assert ApplyEvents(Progress(tx, s), [Dispute]) == Success(disputed);
    assert tx.events[..1] == [Dispute];
  }

  /** A dispute has no status guard: disputing a deposit twice holds its
      amount twice, and the resolve that follows releases it only once. */
  lemma DoubleDispute(tx: Transaction, s: AccountState)
    requires tx.transactionType == Deposit && tx.clientId == s.clientId
    ensures ApplyEvents(Progress(tx, s), [Dispute, Dispute, Resolve]) ==
      Success(Progress(tx.(status := Resolved), s.(available := s.available - tx.amount, held := s.held + tx.amount)))
  {
    var once := Progress(tx.(status := TransactionStatus.Disputed),
                         s.(available := s.available - tx.amount, held := s.held + tx.amount));
    var twice := Progress(tx.(status := TransactionStatus.Disputed),
                          s.(available := s.available - 2 * tx.amount, held := s.held + 2 * tx.amount));
    assert [Dispute, Dispute, Resolve][..2] == [Dispute, Dispute];
    assert [Dispute, Dispute][..1] == [Dispute];
    assert [Dispute][..0] == [];
    assert ApplyEvents(Progress(tx, s), [Dispute]) == Success(once);
    assert ApplyEvents(Progress(tx, s), [Dispute, Dispute]) == Success(twice);
  }
}
