/** The first pass: validates every record, builds the arrival-order history
    of transaction ids and the id-to-transaction table, and folds events onto
    the transaction they reference. */
module Preprocessing {
  import opened Common
  import opened Transactions
  import opened RawRecords

  /** What preprocessing produces: the history and the table. */
  datatype Tables = Tables(history: seq<TxId>, transactions: map<TxId, Transaction>)

  /** The history lists each table key exactly once. */
  predicate HistoryMatchesTable(t: Tables) {
    && NoDuplicates(t.history)
    && (forall id :: id in t.history ==> id in t.transactions)
    && (forall id :: id in t.transactions ==> id in t.history)
  }

  /** Folds one validated item into the tables. A repeated transaction id is
      an error; an event whose transaction is unknown, or belongs to another
      client, is dropped. */
  function Admit(t: Tables, c: CheckedTransaction): (r: Result<Tables, FormatError>)
    // a transaction is admitted exactly when its id is new, whatever its client
    ensures c.TransactionItem? ==> (r.Success? <==> c.transaction.transactionId !in t.transactions)
    ensures c.TransactionItem? && r.Failure? ==> r.error == UniqueTransactionId(c.transaction.transactionId)
    // an admitted transaction ends the history and is filed under its id; no other entry changes
    ensures c.TransactionItem? && r.Success? ==>
      && r.value.history == t.history + [c.transaction.transactionId]
      && r.value.transactions == t.transactions[c.transaction.transactionId := c.transaction]
    ensures c.EventItem? ==> r.Success? && r.value.history == t.history
    ensures c.EventItem? && !Accepts(t.transactions, c.event) ==> r == Success(t)
    ensures c.EventItem? && Accepts(t.transactions, c.event) ==>
      var target := t.transactions[c.event.transactionId];
      r.value.transactions == t.transactions[c.event.transactionId := target.(events := target.events + [c.event.eventType])]
  {
    match c
    case TransactionItem(tx) =>
      if tx.transactionId in t.transactions then Failure(UniqueTransactionId(tx.transactionId))
      else Success(Tables(t.history + [tx.transactionId], t.transactions[tx.transactionId := tx]))
    case EventItem(e) =>
      if e.transactionId in t.transactions then
        var target := t.transactions[e.transactionId];
        if target.clientId == e.clientId then
          Success(Tables(t.history, t.transactions[e.transactionId := target.(events := target.events + [e.eventType])]))
        else Success(t)
      else Success(t)
  }

  /** An event is kept when it references a known transaction of its own client. */
  predicate Accepts(transactions: map<TxId, Transaction>, e: TransactionEvent) {
    e.transactionId in transactions && transactions[e.transactionId].clientId == e.clientId
  }

  /** The id a record contributes to the history: its own id if it is a
      valid deposit or withdrawal, nothing otherwise. */
  function RecordId(raw: RawTransaction): seq<TxId> {
    var c := Check(raw);
    if c.Success? && c.value.TransactionItem? then [c.value.transaction.transactionId] else []
  }

  /** The ids of the deposit and withdrawal records of `raws`, in input order. */
  function TransactionIds(raws: seq<RawTransaction>): seq<TxId>
  {
    if raws == [] then [] else TransactionIds(raws[..|raws| - 1]) + RecordId(raws[|raws| - 1])
  }

  /** The event type a record contributes to transaction `id` of `client`. */
  function EventOf(raw: RawTransaction, id: TxId, client: ClientId): seq<EventType> {
    var c := Check(raw);
    if c.Success? && c.value.EventItem? && c.value.event.transactionId == id && c.value.event.clientId == client
    then [c.value.event.eventType] else []
  }

  /** The event types, in arrival order, of the records of `raws` that are
      events for transaction `id` of client `client`. */
  function EventsFor(raws: seq<RawTransaction>, id: TxId, client: ClientId): seq<EventType>
  {
    if raws == [] then [] else EventsFor(raws[..|raws| - 1], id, client) + EventOf(raws[|raws| - 1], id, client)
  }

  /** Every record of `raws` validates. */
  predicate AllValid(raws: seq<RawTransaction>) {
    forall i :: 0 <= i < |raws| ==> Check(raws[i]).Success?
  }

  /** The table invariant: the history lists each key once, every entry is
      filed under its own id, and nothing has been processed yet. */
  predicate WellFormed(t: Tables) {
    && HistoryMatchesTable(t)
    && forall id :: id in t.transactions ==>
         t.transactions[id].transactionId == id && t.transactions[id].status == Initial
  }

  lemma AdmitPreservesWellFormed(t: Tables, c: CheckedTransaction)
    requires WellFormed(t)
    requires c.TransactionItem? ==> IsFresh(c.transaction)
    ensures Admit(t, c).Success? ==> WellFormed(Admit(t, c).value)
  {
    if c.TransactionItem? && Admit(t, c).Success? {
      var h := Admit(t, c).value.history;
      forall i, j | 0 <= i < j < |h| ensures h[i] != h[j] {
        if j == |h| - 1 {
          assert h[i] in t.history;
        }
      }
    }
  }

  /** One iteration of the first pass: validate the record, then admit it. */
  function Step(t: Tables, raw: RawTransaction): (r: Result<Tables, FormatError>)
    // a record that does not validate aborts the pass with its own error
    ensures Check(raw).Failure? ==> r == Failure(Check(raw).error)
    // a successful step extends the history by the record's id, if it has one
    ensures r.Success? ==> Check(raw).Success? && r.value.history == t.history + RecordId(raw)
  {
    match Check(raw)
    case Failure(e) => Failure(e)
    case Success(c) => Admit(t, c)
  }

  /** What one step does, on a well-formed table. */
  lemma StepFacts(t: Tables, raw: RawTransaction)
    requires WellFormed(t)
    ensures Step(t, raw).Success? <==> Check(raw).Success? && (RecordId(raw) == [] || RecordId(raw)[0] !in t.history)
    ensures Step(t, raw).Success? ==> WellFormed(Step(t, raw).value)
    ensures Step(t, raw).Success? ==> Step(t, raw).value.history == t.history + RecordId(raw)
  {
    if Check(raw).Success? {
      AdmitPreservesWellFormed(t, Check(raw).value);
    }
  }

  /** What one successful step does to the entries of the table. */
  lemma StepEntries(t: Tables, raw: RawTransaction)
    requires WellFormed(t)
    // the entries already in the table only gain the record's event, if it is theirs
    ensures Step(t, raw).Success? ==> forall id :: id in t.transactions ==>
      var before := t.transactions[id];
      Step(t, raw).value.transactions[id] == before.(events := before.events + EventOf(raw, id, before.clientId))
    // a new entry is the record's own transaction
    ensures Step(t, raw).Success? && RecordId(raw) != [] ==>
      Step(t, raw).value.transactions[RecordId(raw)[0]] == Check(raw).value.transaction
  {
    if Check(raw).Success? {
      AdmitPreservesWellFormed(t, Check(raw).value);
    }
  }

  /** The whole first pass, record by record, stopping at the first error. */
  function PreprocessSpec(raws: seq<RawTransaction>): Result<Tables, FormatError>
    decreases |raws|
  {
    if raws == [] then Success(Tables([], map[]))
    else
      match PreprocessSpec(raws[..|raws| - 1])
      case Failure(e) => Failure(e)
      case Success(t) => Step(t, raws[|raws| - 1])
  }

  /** A successful first pass yields a well-formed table whose history is the
      ids of the transaction records in input order, and every record was valid. */
  lemma {:induction false} PreprocessInvariant(raws: seq<RawTransaction>)
    ensures PreprocessSpec(raws).Success? ==>
      && WellFormed(PreprocessSpec(raws).value)
      && PreprocessSpec(raws).value.history == TransactionIds(raws)
      && AllValid(raws)
    decreases |raws|
  {
    if raws != [] && PreprocessSpec(raws).Success? {
      var prefix := raws[..|raws| - 1];
      PreprocessInvariant(prefix);
      var t := PreprocessSpec(prefix).value;
      StepFacts(t, raws[|raws| - 1]);
      assert PreprocessSpec(raws) == Step(t, raws[|raws| - 1]);
      assert TransactionIds(raws) == t.history + RecordId(raws[|raws| - 1]);
      forall i | 0 <= i < |raws| ensures Check(raws[i]).Success? {
        if i < |prefix| {
          assert raws[i] == prefix[i];
        }
      }
    }
  }

  /** Preprocessing succeeds exactly when every record validates and no two
      transaction records share an id. */
  lemma PreprocessSucceedsIff(raws: seq<RawTransaction>)
    ensures PreprocessSpec(raws).Success? <==> AllValid(raws) && NoDuplicates(TransactionIds(raws))
  {
    PreprocessInvariant(raws);
    if AllValid(raws) && NoDuplicates(TransactionIds(raws)) {
      ValidAndUniqueSucceeds(raws);
    }
  }

  lemma {:induction false} ValidAndUniqueSucceeds(raws: seq<RawTransaction>)
    requires AllValid(raws) && NoDuplicates(TransactionIds(raws))
    ensures PreprocessSpec(raws).Success?
    decreases |raws|
  {
    if raws != [] {
      var prefix := raws[..|raws| - 1];
      var last := raws[|raws| - 1];
      var ids := TransactionIds(raws);
      assert ids == TransactionIds(prefix) + RecordId(last);
      assert AllValid(prefix) by {
        forall i | 0 <= i < |prefix| ensures Check(prefix[i]).Success? {
          assert prefix[i] == raws[i];
        }
      }
      NoDuplicatesPrefix(TransactionIds(prefix), RecordId(last));
      ValidAndUniqueSucceeds(prefix);
      PreprocessInvariant(prefix);
      var t := PreprocessSpec(prefix).value;
      StepFacts(t, last);
      assert Check(last).Success?;
      if RecordId(last) != [] {
        forall i | 0 <= i < |t.history| ensures t.history[i] != RecordId(last)[0] {
          assert ids[i] == t.history[i] && ids[|ids| - 1] == RecordId(last)[0];
        }
      }
      assert PreprocessSpec(raws) == Step(t, last);
    }
  }

  /** The first pass is the chain of its steps: tables `ts` that start
      empty and where each record takes one table to the next. */
  lemma {:induction false} PreprocessChain(raws: seq<RawTransaction>, ts: seq<Tables>)
    requires |ts| == |raws| + 1 && ts[0] == Tables([], map[])
    requires forall i :: 0 <= i < |raws| ==> Step(ts[i], raws[i]) == Success(ts[i + 1])
    ensures PreprocessSpec(raws) == Success(ts[|raws|])
    decreases |raws|
  {
    if raws != [] {
      var n := |raws|;
      var prefix, tables := raws[..n - 1], ts[..n];
      forall i | 0 <= i < |prefix| ensures Step(tables[i], prefix[i]) == Success(tables[i + 1]) {
        assert tables[i] == ts[i] && tables[i + 1] == ts[i + 1] && prefix[i] == raws[i];
      }
      PreprocessChain(prefix, tables);
      assert Step(ts[n - 1], raws[n - 1]) == Success(ts[n]);
    }
  }

  /** Once a prefix fails, preprocessing the whole input fails the same way. */
  lemma {:induction false} FailureSticks(raws: seq<RawTransaction>, n: nat)
    requires n <= |raws| && PreprocessSpec(raws[..n]).Failure?
    ensures PreprocessSpec(raws) == PreprocessSpec(raws[..n])
    decreases |raws| - n
  {
    if n < |raws| {
      assert raws[..n + 1][..n] == raws[..n];
      FailureSticks(raws, n + 1);
    } else {
      assert raws[..n] == raws;
    }
  }

  lemma EventsForSnoc(raws: seq<RawTransaction>, k: nat, id: TxId, client: ClientId)
    requires k < |raws|
    ensures EventsFor(raws[k..], id, client) ==
      EventsFor(raws[k..|raws| - 1], id, client) + EventOf(raws[|raws| - 1], id, client)
  {
    var tail := raws[k..];
    assert tail[..|tail| - 1] == raws[k..|raws| - 1];
    assert tail[|tail| - 1] == raws[|raws| - 1];
  }

  /** Each table entry is the transaction of its record, with the events of
      its own client that arrived after it appended in arrival order; events
      that arrived before it, or name another client, are dropped. */
  lemma {:induction false} PreprocessCollectsEvents(raws: seq<RawTransaction>, k: nat)
    requires PreprocessSpec(raws).Success?
    requires k < |raws| && RecordId(raws[k]) != []
    ensures var tx := Check(raws[k]).value.transaction;
      && tx.transactionId in PreprocessSpec(raws).value.transactions
      && PreprocessSpec(raws).value.transactions[tx.transactionId] ==
           tx.(events := EventsFor(raws[k + 1..], tx.transactionId, tx.clientId))
    decreases |raws|
  {
    var prefix := raws[..|raws| - 1];
    var t := PreprocessSpec(prefix).value;
    assert PreprocessSpec(raws) == Step(t, raws[|raws| - 1]);
    PreprocessInvariant(prefix);
    StepEntries(t, raws[|raws| - 1]);
    if k == |raws| - 1 {
      assert raws[k + 1..] == [];
    } else {
      assert prefix[k] == raws[k];
      PreprocessCollectsEvents(prefix, k);
      assert prefix[k + 1..] == raws[k + 1..|raws| - 1];
      CollectsOneMore(raws, k, t);
    }
  }

  /** The step of PreprocessCollectsEvents: the last record adds its event,
      if it is one for the entry, to what the earlier records collected. */
  lemma CollectsOneMore(raws: seq<RawTransaction>, k: nat, t: Tables)
    requires k < |raws| - 1 && RecordId(raws[k]) != [] && WellFormed(t)
    requires Step(t, raws[|raws| - 1]).Success?
    requires var tx := Check(raws[k]).value.transaction;
      && tx.transactionId in t.transactions
      && t.transactions[tx.transactionId] == tx.(events := EventsFor(raws[k + 1..|raws| - 1], tx.transactionId, tx.clientId))
    ensures var tx := Check(raws[k]).value.transaction;
      && tx.transactionId in Step(t, raws[|raws| - 1]).value.transactions
      && Step(t, raws[|raws| - 1]).value.transactions[tx.transactionId] ==
           tx.(events := EventsFor(raws[k + 1..], tx.transactionId, tx.clientId))
  {
    var tx := Check(raws[k]).value.transaction;
    StepEntries(t, raws[|raws| - 1]);
    EventsForSnoc(raws, k + 1, tx.transactionId, tx.clientId);
    var before := t.transactions[tx.transactionId];
    assert before.clientId == tx.clientId;
  }

  /** The first pass as the source runs it: one loop over the records. */
  method Preprocess(raws: seq<RawTransaction>) returns (r: Result<Tables, FormatError>)
    ensures r == PreprocessSpec(raws)
  {
    var history: seq<TxId> := [];
    var transactions: map<TxId, Transaction> := map[];
    for i := 0 to |raws|
      invariant PreprocessSpec(raws[..i]) == Success(Tables(history, transactions))
    {
      assert raws[..i + 1][..i] == raws[..i];
      var checked := Check(raws[i]);
      if checked.Failure? {
        FailureSticks(raws, i + 1);
        return Failure(checked.error);
      }
      match checked.value
      case TransactionItem(tx) =>
        if tx.transactionId in transactions {
          FailureSticks(raws, i + 1);
          return Failure(UniqueTransactionId(tx.transactionId));
        }
        history := history + [tx.transactionId];
        transactions := transactions[tx.transactionId := tx];
      case EventItem(event) =>
        if event.transactionId in transactions {
          var target := transactions[event.transactionId];
          if target.clientId == event.clientId {
            // events are kept in arrival order
            transactions := transactions[event.transactionId := target.(events := target.events + [event.eventType])];
          }
        }
    }
    assert raws[..|raws|] == raws;
    r := Success(Tables(history, transactions));
  }
}
