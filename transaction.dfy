/** Transactions, transaction events and the validated form of an input record. */
module Transactions {
  import opened Common

  datatype TransactionType = Deposit | Withdrawal

  datatype EventType = Dispute | Resolve | Chargeback

  /** The lifecycle of a transaction. `Processed` is the state the enum
      declaration calls `Booked`; `Reversed` means a chargeback was performed. */
  datatype TransactionStatus = Initial | Processed | Disputed | Resolved | Reversed

  /** A deposit or withdrawal together with the events later attached to it. */
  datatype Transaction = Transaction(
    transactionType: TransactionType,
    clientId: ClientId,
    transactionId: TxId,
    amount: Amount,
    events: seq<EventType>,
    status: TransactionStatus)

  /** A dispute, resolve or chargeback that references a transaction by id. */
  datatype TransactionEvent = TransactionEvent(eventType: EventType, clientId: ClientId, transactionId: TxId)

  /** A record that passed validation: either a transaction or an event. */
  datatype CheckedTransaction =
    | TransactionItem(transaction: Transaction)
    | EventItem(event: TransactionEvent)

  /** A transaction as created from an input record: no events yet, status Initial. */
  function NewTransaction(transactionType: TransactionType, clientId: ClientId, transactionId: TxId, amount: Amount): (t: Transaction)
    ensures t.transactionType == transactionType && t.clientId == clientId
    ensures t.transactionId == transactionId && t.amount == amount
    ensures t.events == [] && t.status == Initial
  {
    Transaction(transactionType, clientId, transactionId, amount, [], Initial)
  }

  /** A transaction that nothing has happened to yet. */
  predicate IsFresh(t: Transaction) {
    t.events == [] && t.status == Initial
  }
}
