/** The earlier revision of the account: deposits and withdrawals only, with
    no lock and no funds check. */
module EarlyAccount {
  import opened Common
  import opened EarlyRecords
  import Accounts

  /** A deposit or withdrawal as this revision books it: a plain amount. */
  datatype Transfer = Transfer(txType: TransactionType, clientId: ClientId, transactionId: TxId, amount: Amount)

  datatype AccountError = InvalidClientId | InvalidTransactionType

  /** Deposit: the type is checked before the client; nothing else is. */
  function DepositOutcome(s: Accounts.AccountState, tx: Transfer): (r: Result<Accounts.AccountState, AccountError>)
    ensures r.Success? <==> tx.txType == Deposit && tx.clientId == s.clientId
    ensures tx.txType != Deposit ==> r == Failure(InvalidTransactionType)
    ensures tx.txType == Deposit && tx.clientId != s.clientId ==> r == Failure(InvalidClientId)
    ensures r.Success? ==>
      && r.value.available == s.available + tx.amount && r.value.total == s.total + tx.amount
      && r.value.held == s.held && r.value.isLocked == s.isLocked && r.value.clientId == s.clientId
    ensures r.Success? ==> (Accounts.Balanced(r.value) <==> Accounts.Balanced(s))
  {
    match tx.txType
    case Deposit =>
      if tx.clientId == s.clientId then Success(s.(available := s.available + tx.amount, total := s.total + tx.amount))
      else Failure(InvalidClientId)
    case _ => Failure(InvalidTransactionType)
  }

  /** Withdraw: the same checks; the available amount may go negative. */
  function WithdrawOutcome(s: Accounts.AccountState, tx: Transfer): (r: Result<Accounts.AccountState, AccountError>)
    ensures r.Success? <==> tx.txType == Withdrawal && tx.clientId == s.clientId
    ensures tx.txType != Withdrawal ==> r == Failure(InvalidTransactionType)
    ensures tx.txType == Withdrawal && tx.clientId != s.clientId ==> r == Failure(InvalidClientId)
    ensures r.Success? ==>
      && r.value.available == s.available - tx.amount && r.value.total == s.total - tx.amount
      && r.value.held == s.held && r.value.isLocked == s.isLocked && r.value.clientId == s.clientId
    ensures r.Success? ==> (Accounts.Balanced(r.value) <==> Accounts.Balanced(s))
  {
    match tx.txType
    case Withdrawal =>
      if tx.clientId == s.clientId then Success(s.(available := s.available - tx.amount, total := s.total - tx.amount))
      else Failure(InvalidClientId)
    case _ => Failure(InvalidTransactionType)
  }

  /** A withdrawal of what was just deposited restores the account. */
  lemma WithdrawUndoesDeposit(s: Accounts.AccountState, tx: Transfer)
    requires DepositOutcome(s, tx).Success?
    ensures WithdrawOutcome(DepositOutcome(s, tx).value, tx.(txType := Withdrawal)) == Success(s)
  {
  }

  /** Withdrawing 25 from a new account leaves it at -25. */
  lemma Overdraft(s: Accounts.AccountState, tx: Transfer)
    requires s == Accounts.Opened(1) && tx == Transfer(Withdrawal, 1, 1, 250000)
    ensures WithdrawOutcome(s, tx) == Success(Accounts.AccountState(1, -250000, 0, -250000, false))
  {
  }

  class Account {
    const clientId: ClientId
    var available: Amount
    var held: Amount
    var total: Amount
    var isLocked: bool

    function State(): Accounts.AccountState
      reads this
    {
      Accounts.AccountState(clientId, available, held, total, isLocked)
    }

    constructor (clientId: ClientId)
      ensures State() == Accounts.Opened(clientId)
    {
      this.clientId := clientId;
      available, held, total := 0, 0, 0;
      isLocked := false;
    }

    method Deposit(tx: Transfer) returns (r: Result<(), AccountError>)
      modifies this
      ensures r == DepositOutcome(old(State()), tx).Drop()
      ensures State() == DepositOutcome(old(State()), tx).GetOr(old(State()))
    {
      match tx.txType {
        case Deposit =>
          if tx.clientId == clientId {
            available := available + tx.amount;
            total := total + tx.amount;
            r := Success(());
          } else {
            r := Failure(InvalidClientId);
          }
        case _ =>
          r := Failure(InvalidTransactionType);
      }
    }

    method Withdraw(tx: Transfer) returns (r: Result<(), AccountError>)
      modifies this
      ensures r == WithdrawOutcome(old(State()), tx).Drop()
      ensures State() == WithdrawOutcome(old(State()), tx).GetOr(old(State()))
    {
      match tx.txType {
        case Withdrawal =>
          if tx.clientId == clientId {
            available := available - tx.amount;
            total := total - tx.amount;
            r := Success(());
          } else {
            r := Failure(InvalidClientId);
          }
        case _ =>
          r := Failure(InvalidTransactionType);
      }
    }
  }
}
