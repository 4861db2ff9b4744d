/** The record validator: turns an untyped input record into a transaction
    or a transaction event, or a format error. */
module RawRecords {
  import opened Common
  import opened Transactions

  /** One input row: a type tag, a client id, a transaction id and an optional amount. */
  datatype RawTransaction = RawTransaction(kind: string, client: ClientId, tx: TxId, amount: Option<Amount>)

  /** The format errors the validator and the preprocessor raise. */
  datatype FormatError =
    | MissingAmount(tx: TxId, kind: string)
    | InvalidAmount(tx: TxId, kind: string)
    | InvalidTransactionType(kind: string, tx: TxId)
    | UniqueTransactionId(tx: TxId)

  function TransactionTag(t: TransactionType): string {
    match t
    case Deposit => "deposit"
    case Withdrawal => "withdrawal"
  }

  function EventTag(e: EventType): string {
    match e
    case Dispute => "dispute"
    case Resolve => "resolve"
    case Chargeback => "chargeback"
  }

  const TransactionTags: set<string> := {"deposit", "withdrawal"}
  const EventTags: set<string> := {"dispute", "resolve", "chargeback"}

  /** The error a record that fails validation is rejected with. */
  function ExpectedError(raw: RawTransaction): FormatError {
    if raw.kind in TransactionTags then MissingAmount(raw.tx, raw.kind)
    else if raw.kind in EventTags then InvalidAmount(raw.tx, raw.kind)
    else InvalidTransactionType(raw.kind, raw.tx)
  }

  /** Validates one record. Tags are compared exactly (case-sensitively);
      deposits and withdrawals need an amount, events must not carry one.
      The lemmas below state what it returns in each case. */
  function Check(raw: RawTransaction): (r: Result<CheckedTransaction, FormatError>)
    ensures r.Success? && r.value.TransactionItem? ==> IsFresh(r.value.transaction)
  {
    if raw.kind == "deposit" then
      match raw.amount
      case Some(a) => Success(TransactionItem(NewTransaction(Deposit, raw.client, raw.tx, a)))
      case None => Failure(MissingAmount(raw.tx, raw.kind))
    else if raw.kind == "withdrawal" then
      match raw.amount
      case Some(a) => Success(TransactionItem(NewTransaction(Withdrawal, raw.client, raw.tx, a)))
      case None => Failure(MissingAmount(raw.tx, raw.kind))
    else if raw.kind == "dispute" then
      if raw.amount.Some? then Failure(InvalidAmount(raw.tx, raw.kind))
      else Success(EventItem(TransactionEvent(Dispute, raw.client, raw.tx)))
    else if raw.kind == "resolve" then
      if raw.amount.Some? then Failure(InvalidAmount(raw.tx, raw.kind))
      else Success(EventItem(TransactionEvent(Resolve, raw.client, raw.tx)))
    else if raw.kind == "chargeback" then
      if raw.amount.Some? then Failure(InvalidAmount(raw.tx, raw.kind))
      else Success(EventItem(TransactionEvent(Chargeback, raw.client, raw.tx)))
    else
      Failure(InvalidTransactionType(raw.kind, raw.tx))
  }

  /** A transaction comes out exactly for a transaction tag with an amount,
      carrying the record's type, client, id and amount. */
  lemma CheckTransactionRecord(raw: RawTransaction)
    ensures var r := Check(raw);
      && ((r.Success? && r.value.TransactionItem?) <==> raw.kind in TransactionTags && raw.amount.Some?)
      && (r.Success? && r.value.TransactionItem? ==>
            var t := r.value.transaction;
            && TransactionTag(t.transactionType) == raw.kind
            && t.clientId == raw.client && t.transactionId == raw.tx
            && raw.amount == Some(t.amount) && IsFresh(t))
  {
  }

  /** An event comes out exactly for an event tag without an amount, carrying
      the record's event kind, client and referenced id. */
  lemma CheckEventRecord(raw: RawTransaction)
    ensures var r := Check(raw);
      && ((r.Success? && r.value.EventItem?) <==> raw.kind in EventTags && raw.amount.None?)
      && (r.Success? && r.value.EventItem? ==>
            var e := r.value.event;
            EventTag(e.eventType) == raw.kind && e.clientId == raw.client && e.transactionId == raw.tx)
  {
  }

  /** A record that fails is rejected as missing its amount (transaction tag),
      carrying an amount it must not have (event tag), or having an unknown tag. */
  lemma CheckRejects(raw: RawTransaction)
    ensures Check(raw).Failure? <==> raw.kind !in TransactionTags + EventTags || (raw.kind in TransactionTags <==> raw.amount.None?)
    ensures Check(raw).Failure? ==> Check(raw).error == ExpectedError(raw)
  {
  }

  /** The input record a validated item comes from; validation inverts it. */
  function Render(c: CheckedTransaction): (raw: RawTransaction)
    requires c.TransactionItem? ==> IsFresh(c.transaction)
    ensures Check(raw) == Success(c)
  {
    match c
    case TransactionItem(t) => RawTransaction(TransactionTag(t.transactionType), t.clientId, t.transactionId, Some(t.amount))
    case EventItem(e) => RawTransaction(EventTag(e.eventType), e.clientId, e.transactionId, None)
  }

  /** Every record that validates is the rendering of what it validates to. */
  lemma CheckIsInjective(raw: RawTransaction)
    requires Check(raw).Success?
    ensures Render(Check(raw).value) == raw
  {
  }
}
