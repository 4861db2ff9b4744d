/** The earlier revision of the record parser: five transaction kinds in one
    type, the amount passed through as it is, and no validation beyond the
    type tag. */
module EarlyRecords {
  import opened Common
  import RawRecords

  /** Every kind of input row is a transaction of its own type. */
  datatype TransactionType = Deposit | Withdrawal | Dispute | Resolve | Chargeback

  /** A parsed row; the amount stays optional for every kind. */
  datatype Transaction = Transaction(txType: TransactionType, clientId: ClientId, transactionId: TxId, amount: Option<Amount>)

  /** The only way parsing fails: a tag that names no transaction type. */
  datatype ParseError = UnsupportedType(kind: string)

  function Tag(t: TransactionType): string {
    match t
    case Deposit => "deposit"
    case Withdrawal => "withdrawal"
    case Dispute => "dispute"
    case Resolve => "resolve"
    case Chargeback => "chargeback"
  }

  const Tags: set<string> := {"deposit", "withdrawal", "dispute", "resolve", "chargeback"}

  /** Maps the type tag, compared exactly, and copies the other three fields. */
  function Parse(raw: RawRecords.RawTransaction): (r: Result<Transaction, ParseError>)
    ensures r.Success? <==> raw.kind in Tags
    ensures r.Success? ==>
      && Tag(r.value.txType) == raw.kind
      && r.value.clientId == raw.client && r.value.transactionId == raw.tx && r.value.amount == raw.amount
    ensures r.Failure? ==> r.error == UnsupportedType(raw.kind)
  {
    if raw.kind == "deposit" then Success(Transaction(Deposit, raw.client, raw.tx, raw.amount))
    else if raw.kind == "withdrawal" then Success(Transaction(Withdrawal, raw.client, raw.tx, raw.amount))
    else if raw.kind == "dispute" then Success(Transaction(Dispute, raw.client, raw.tx, raw.amount))
    else if raw.kind == "resolve" then Success(Transaction(Resolve, raw.client, raw.tx, raw.amount))
    else if raw.kind == "chargeback" then Success(Transaction(Chargeback, raw.client, raw.tx, raw.amount))
    else Failure(UnsupportedType(raw.kind))
  }

  /** The row a parsed transaction comes from; parsing inverts it, whatever
      the amount (a deposit without one is accepted too). */
  function Render(t: Transaction): (raw: RawRecords.RawTransaction)
    ensures Parse(raw) == Success(t)
  {
    RawRecords.RawTransaction(Tag(t.txType), t.clientId, t.transactionId, t.amount)
  }

  /** Every row that parses is the rendering of what it parses to. */
  lemma ParseIsInjective(raw: RawRecords.RawTransaction)
    requires Parse(raw).Success?
    ensures Render(Parse(raw).value) == raw
  {
  }
}
