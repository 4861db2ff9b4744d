/** The account state machine: one account per client, with available, held
    and total amounts and a lock flag, and the five operations that change it. */
module Accounts {
  import opened Common
  import opened Transactions

  /** The errors the account operations return. */
  datatype AccountError =
    | InvalidClientId
    | FrozenAccount(client: ClientId)
    | InsufficientFunds(client: ClientId)
    | InvalidTransactionType(tx: TxId)
    | InvalidEventType(tx: TxId)

  /** The value of an account at one moment. */
  datatype AccountState = AccountState(clientId: ClientId, available: Amount, held: Amount, total: Amount, isLocked: bool)

  /** The ledger's main invariant. */
  predicate Balanced(s: AccountState) {
    s.total == s.available + s.held
  }

  /** A new account: nothing in it, unlocked. */
  function Opened(clientId: ClientId): AccountState {
    AccountState(clientId, 0, 0, 0, false)
  }

  // ---------------------------------------------------------------------
  // Specification of each operation on account values. A failing operation
  // leaves the account as it was, so a failure carries no new state.
  // ---------------------------------------------------------------------

  function DepositOutcome(s: AccountState, tx: Transaction): (r: Result<AccountState, AccountError>)
    ensures r.Success? <==> tx.transactionType == Deposit && tx.clientId == s.clientId && !s.isLocked
    ensures r.Success? ==>
      && r.value.available == s.available + tx.amount && r.value.total == s.total + tx.amount
      && r.value.held == s.held && r.value.isLocked == s.isLocked && r.value.clientId == s.clientId
    ensures r.Success? ==> (Balanced(r.value) <==> Balanced(s))
    ensures tx.transactionType == Withdrawal ==> r == Failure(InvalidTransactionType(tx.transactionId))
    ensures tx.transactionType == Deposit && tx.clientId != s.clientId ==> r == Failure(InvalidClientId)
    ensures tx.transactionType == Deposit && tx.clientId == s.clientId && s.isLocked ==> r == Failure(FrozenAccount(s.clientId))
  {
    match tx.transactionType
    case Deposit =>
      if s.clientId == tx.clientId then
        if !s.isLocked then Success(s.(available := s.available + tx.amount, total := s.total + tx.amount))
        else Failure(FrozenAccount(s.clientId))
      else Failure(InvalidClientId)
    case Withdrawal => Failure(InvalidTransactionType(tx.transactionId))
  }

  function WithdrawOutcome(s: AccountState, tx: Transaction): (r: Result<AccountState, AccountError>)
    ensures r.Success? <==>
      tx.transactionType == Withdrawal && tx.clientId == s.clientId && !s.isLocked && s.available - tx.amount >= 0
    ensures r.Success? ==>
      && r.value.available == s.available - tx.amount && r.value.total == s.total - tx.amount
      && r.value.held == s.held && r.value.isLocked == s.isLocked && r.value.clientId == s.clientId
    // a successful withdrawal never leaves the available amount negative
    ensures r.Success? ==> r.value.available >= 0
    ensures r.Success? ==> (Balanced(r.value) <==> Balanced(s))
    ensures tx.transactionType == Deposit ==> r == Failure(InvalidTransactionType(tx.transactionId))
    ensures tx.transactionType == Withdrawal && tx.clientId != s.clientId ==> r == Failure(InvalidClientId)
    ensures tx.transactionType == Withdrawal && tx.clientId == s.clientId && s.isLocked ==> r == Failure(FrozenAccount(s.clientId))
    ensures tx.transactionType == Withdrawal && tx.clientId == s.clientId && !s.isLocked && s.available - tx.amount < 0 ==>
      r == Failure(InsufficientFunds(s.clientId))
  {
    match tx.transactionType
    case Withdrawal =>
      if s.clientId == tx.clientId then
        if !s.isLocked then
          if s.available - tx.amount >= 0 then Success(s.(available := s.available - tx.amount, total := s.total - tx.amount))
          else Failure(InsufficientFunds(s.clientId))
        else Failure(FrozenAccount(s.clientId))
      else Failure(InvalidClientId)
    case Deposit => Failure(InvalidTransactionType(tx.transactionId))
  }

  /** Moves `amount` from held to available without touching the total
      (a negative `amount` moves it the other way). */
  function Release(s: AccountState, amount: Amount): AccountState {
    s.(available := s.available + amount, held := s.held - amount)
  }

  /** The private per-type steps. Each fails with InvalidClientId when the
      transaction is another client's, and otherwise moves the amount
      between the account's parts without touching the lock. */
  function DisputeDepositOutcome(s: AccountState, tx: Transaction): (r: Result<AccountState, AccountError>)
    ensures r.Success? <==> tx.clientId == s.clientId
    ensures r.Failure? ==> r.error == InvalidClientId
    // the deposit's amount is held back from the available funds
    ensures r.Success? ==>
      && r.value.available == s.available - tx.amount && r.value.held == s.held + tx.amount
      && r.value.total == s.total && r.value.isLocked == s.isLocked && r.value.clientId == s.clientId
  {
    if s.clientId == tx.clientId then Success(Release(s, -tx.amount)) else Failure(InvalidClientId)
  }

  function DisputeWithdrawalOutcome(s: AccountState, tx: Transaction): (r: Result<AccountState, AccountError>)
    ensures r.Success? <==> tx.clientId == s.clientId
    ensures r.Failure? ==> r.error == InvalidClientId
    // the withdrawn amount comes back as available, against a (possibly negative) held amount
    ensures r.Success? ==>
      && r.value.available == s.available + tx.amount && r.value.held == s.held - tx.amount
      && r.value.total == s.total && r.value.isLocked == s.isLocked && r.value.clientId == s.clientId
  {
    if s.clientId == tx.clientId then Success(Release(s, tx.amount)) else Failure(InvalidClientId)
  }

  function ResolveDepositOutcome(s: AccountState, tx: Transaction): (r: Result<AccountState, AccountError>)
    ensures r.Success? <==> tx.clientId == s.clientId
    ensures r.Failure? ==> r.error == InvalidClientId
    // the exact inverse of DisputeDepositOutcome
    ensures r.Success? ==> Release(r.value, -tx.amount) == s && r.value.total == s.total
  {
    if s.clientId == tx.clientId then Success(Release(s, tx.amount)) else Failure(InvalidClientId)
  }

  function ResolveWithdrawalOutcome(s: AccountState, tx: Transaction): (r: Result<AccountState, AccountError>)
    ensures r.Success? <==> tx.clientId == s.clientId
    ensures r.Failure? ==> r.error == InvalidClientId
    // the exact inverse of DisputeWithdrawalOutcome
    ensures r.Success? ==> Release(r.value, tx.amount) == s && r.value.total == s.total
  {
    if s.clientId == tx.clientId then Success(Release(s, -tx.amount)) else Failure(InvalidClientId)
  }

  function ChargebackDepositOutcome(s: AccountState, tx: Transaction): (r: Result<AccountState, AccountError>)
    ensures r.Success? <==> tx.clientId == s.clientId
    ensures r.Failure? ==> r.error == InvalidClientId
    // the held funds leave the account; the available funds and the lock are kept
    ensures r.Success? ==>
      && r.value.held == s.held - tx.amount && r.value.total == s.total - tx.amount
      && r.value.available == s.available && r.value.isLocked == s.isLocked && r.value.clientId == s.clientId
  {
    if s.clientId == tx.clientId then Success(s.(held := s.held - tx.amount, total := s.total - tx.amount))
    else Failure(InvalidClientId)
  }

  function ChargebackWithdrawalOutcome(s: AccountState, tx: Transaction): (r: Result<AccountState, AccountError>)
    ensures r.Success? <==> tx.clientId == s.clientId
    ensures r.Failure? ==> r.error == InvalidClientId
    // the withdrawn funds are restored to the account; the available funds and the lock are kept
    ensures r.Success? ==>
      && r.value.held == s.held + tx.amount && r.value.total == s.total + tx.amount
      && r.value.available == s.available && r.value.isLocked == s.isLocked && r.value.clientId == s.clientId
  {
    if s.clientId == tx.clientId then Success(s.(held := s.held + tx.amount, total := s.total + tx.amount))
    else Failure(InvalidClientId)
  }

  /** Dispute: a disputed deposit moves its amount from available to held, a
      disputed withdrawal moves it from held back to available (held may go
      negative). There is no status guard and no lock check. */
  function DisputeOutcome(s: AccountState, tx: Transaction, e: EventType): (r: Result<AccountState, AccountError>)
    ensures e != Dispute ==> r == Failure(InvalidEventType(tx.transactionId))
    ensures e == Dispute ==> (r.Success? <==> tx.clientId == s.clientId)
    ensures e == Dispute && r.Failure? ==> r.error == InvalidClientId
    ensures r.Success? && tx.transactionType == Deposit ==>
      r.value.available == s.available - tx.amount && r.value.held == s.held + tx.amount
    ensures r.Success? && tx.transactionType == Withdrawal ==>
      r.value.available == s.available + tx.amount && r.value.held == s.held - tx.amount
    ensures r.Success? ==> r.value.total == s.total && r.value.isLocked == s.isLocked && r.value.clientId == s.clientId
    ensures r.Success? ==> (Balanced(r.value) <==> Balanced(s))
  {
    match e
    case Dispute =>
      (match tx.transactionType
       case Deposit => DisputeDepositOutcome(s, tx)
       case Withdrawal => DisputeWithdrawalOutcome(s, tx))
    case _ => Failure(InvalidEventType(tx.transactionId))
  }

  /** Resolve: ignored (successfully) unless the transaction is disputed;
      otherwise it moves the disputed amount back. */
  function ResolveOutcome(s: AccountState, tx: Transaction, e: EventType): (r: Result<AccountState, AccountError>)
    ensures e != Resolve ==> r == Failure(InvalidEventType(tx.transactionId))
    ensures e == Resolve && tx.status != Disputed ==> r == Success(s)
    ensures e == Resolve && tx.status == Disputed ==> (r.Success? <==> tx.clientId == s.clientId)
    ensures e == Resolve && r.Failure? ==> r.error == InvalidClientId
    ensures r.Success? && tx.status == Disputed && tx.transactionType == Deposit ==>
      r.value.available == s.available + tx.amount && r.value.held == s.held - tx.amount
    ensures r.Success? && tx.status == Disputed && tx.transactionType == Withdrawal ==>
      r.value.available == s.available - tx.amount && r.value.held == s.held + tx.amount
    ensures r.Success? ==> r.value.total == s.total && r.value.isLocked == s.isLocked && r.value.clientId == s.clientId
    ensures r.Success? ==> (Balanced(r.value) <==> Balanced(s))
  {
    match e
    case Resolve =>
      if tx.status == Disputed then
        match tx.transactionType
        case Deposit => ResolveDepositOutcome(s, tx)
        case Withdrawal => ResolveWithdrawalOutcome(s, tx)
      else Success(s)
    case _ => Failure(InvalidEventType(tx.transactionId))
  }

  /** Chargeback: ignored (successfully) unless the transaction is disputed;
      otherwise a deposit's held funds are removed (a withdrawal's restored)
      and the account is locked. */
  function ChargebackOutcome(s: AccountState, tx: Transaction, e: EventType): (r: Result<AccountState, AccountError>)
    ensures e != Chargeback ==> r == Failure(InvalidEventType(tx.transactionId))
    ensures e == Chargeback && tx.status != Disputed ==> r == Success(s)
    ensures e == Chargeback && tx.status == Disputed ==> (r.Success? <==> tx.clientId == s.clientId)
    ensures e == Chargeback && r.Failure? ==> r.error == InvalidClientId
    ensures r.Success? && tx.status == Disputed ==> r.value.isLocked && r.value.available == s.available
    ensures r.Success? && tx.status == Disputed && tx.transactionType == Deposit ==>
      r.value.held == s.held - tx.amount && r.value.total == s.total - tx.amount
    ensures r.Success? && tx.status == Disputed && tx.transactionType == Withdrawal ==>
      r.value.held == s.held + tx.amount && r.value.total == s.total + tx.amount
    ensures r.Success? ==> r.value.clientId == s.clientId && (Balanced(r.value) <==> Balanced(s))
  {
    match e
    case Chargeback =>
      if tx.status == Disputed then
        var charged :=
          match tx.transactionType
          case Deposit => ChargebackDepositOutcome(s, tx)
          case Withdrawal => ChargebackWithdrawalOutcome(s, tx);
        match charged
        case Success(t) => Success(t.(isLocked := true))
        case Failure(err) => Failure(err)
      else Success(s)
    case _ => Failure(InvalidEventType(tx.transactionId))
  }

  /** Resolving a dispute puts the account back exactly where it was before
      the dispute. */
  lemma ResolveUndoesDispute(s: AccountState, tx: Transaction)
    requires DisputeOutcome(s, tx, Dispute).Success?
    ensures ResolveOutcome(DisputeOutcome(s, tx, Dispute).value, tx.(status := Disputed), Resolve) == Success(s)
  {
  }

  /** Once locked, an account stays locked under every operation, and it
      takes no further deposits or withdrawals. */
  lemma LockIsPermanent(s: AccountState, tx: Transaction, e: EventType)
    requires s.isLocked
    ensures DepositOutcome(s, tx).Failure? && WithdrawOutcome(s, tx).Failure?
    ensures DisputeOutcome(s, tx, e).Success? ==> DisputeOutcome(s, tx, e).value.isLocked
    ensures ResolveOutcome(s, tx, e).Success? ==> ResolveOutcome(s, tx, e).value.isLocked
    ensures ChargebackOutcome(s, tx, e).Success? ==> ChargebackOutcome(s, tx, e).value.isLocked
  {
  }

  // ---------------------------------------------------------------------
  // The account object.
  // ---------------------------------------------------------------------

  class Account {
    const clientId: ClientId
    var availableAmount: Amount
    var heldAmount: Amount
    var totalAmount: Amount
    var isLocked: bool

    function State(): AccountState
      reads this
    {
      AccountState(clientId, availableAmount, heldAmount, totalAmount, isLocked)
    }

    constructor (clientId: ClientId)
      ensures State() == AccountState(clientId, 0, 0, 0, false) == Opened(clientId)
    {
      this.clientId := clientId;
      availableAmount, heldAmount, totalAmount := 0, 0, 0;
      isLocked := false;
    }

    method Freeze()
      modifies this
      ensures State() == old(State()).(isLocked := true)
    {
      isLocked := true;
    }

    method Deposit(tx: Transaction) returns (r: Result<(), AccountError>)
      modifies this
      ensures r == DepositOutcome(old(State()), tx).Drop()
      ensures State() == DepositOutcome(old(State()), tx).GetOr(old(State()))
    {
      match tx.transactionType
      case Deposit =>
        if clientId == tx.clientId {
          if !isLocked {
            availableAmount := availableAmount + tx.amount;
            totalAmount := totalAmount + tx.amount;
            r := Success(());
          } else {
            r := Failure(FrozenAccount(clientId));
          }
        } else {
          r := Failure(InvalidClientId);
        }
      case _ =>
        r := Failure(InvalidTransactionType(tx.transactionId));
    }

    method Withdraw(tx: Transaction) returns (r: Result<(), AccountError>)
      modifies this
      ensures r == WithdrawOutcome(old(State()), tx).Drop()
      ensures State() == WithdrawOutcome(old(State()), tx).GetOr(old(State()))
    {
      match tx.transactionType
      case Withdrawal =>
        if clientId == tx.clientId {
          if !isLocked {
            if availableAmount - tx.amount >= 0 {
              availableAmount := availableAmount - tx.amount;
              totalAmount := totalAmount - tx.amount;
              r := Success(());
            } else {
              r := Failure(InsufficientFunds(clientId));
            }
          } else {
            r := Failure(FrozenAccount(clientId));
          }
        } else {
          r := Failure(InvalidClientId);
        }
      case _ =>
        r := Failure(InvalidTransactionType(tx.transactionId));
    }

    method Dispute(tx: Transaction, eventType: EventType) returns (r: Result<(), AccountError>)
      modifies this
      ensures r == DisputeOutcome(old(State()), tx, eventType).Drop()
      ensures State() == DisputeOutcome(old(State()), tx, eventType).GetOr(old(State()))
    {
      if eventType.Dispute? {
        match tx.transactionType
        case Deposit => r := DisputeDeposit(tx);
        case Withdrawal => r := DisputeWithdrawal(tx);
      } else {
        r := Failure(InvalidEventType(tx.transactionId));
      }
    }

    method Resolve(tx: Transaction, eventType: EventType) returns (r: Result<(), AccountError>)
      modifies this
      ensures r == ResolveOutcome(old(State()), tx, eventType).Drop()
      ensures State() == ResolveOutcome(old(State()), tx, eventType).GetOr(old(State()))
    {
      if eventType.Resolve? {
        // a resolve for a transaction that is not under dispute is ignored
        if tx.status == Disputed {
          match tx.transactionType
          case Deposit => r := ResolveDeposit(tx);
          case Withdrawal => r := ResolveWithdrawal(tx);
        } else {
          r := Success(());
        }
      } else {
        r := Failure(InvalidEventType(tx.transactionId));
      }
    }

    method Chargeback(tx: Transaction, eventType: EventType) returns (r: Result<(), AccountError>)
      modifies this
      ensures r == ChargebackOutcome(old(State()), tx, eventType).Drop()
      ensures State() == ChargebackOutcome(old(State()), tx, eventType).GetOr(old(State()))
    {
      if eventType.Chargeback? {
        // a chargeback for a transaction that is not under dispute is ignored
        if tx.status == Disputed {
          var charged: Result<(), AccountError>;
          match tx.transactionType {
            case Deposit => charged := ChargebackDeposit(tx);
            case Withdrawal => charged := ChargebackWithdrawal(tx);
          }
          if charged.Failure? {
            return Failure(charged.error);
          }
          Freeze();
          r := Success(());
        } else {
          r := Success(());
        }
      } else {
        r := Failure(InvalidEventType(tx.transactionId));
      }
    }

    method DisputeDeposit(tx: Transaction) returns (r: Result<(), AccountError>)
      modifies this
      ensures r == DisputeDepositOutcome(old(State()), tx).Drop()
      ensures State() == DisputeDepositOutcome(old(State()), tx).GetOr(old(State()))
    {
      if clientId == tx.clientId {
        availableAmount := availableAmount - tx.amount;
        heldAmount := heldAmount + tx.amount;
        r := Success(());
      } else {
        r := Failure(InvalidClientId);
      }
    }

    method DisputeWithdrawal(tx: Transaction) returns (r: Result<(), AccountError>)
      modifies this
      ensures r == DisputeWithdrawalOutcome(old(State()), tx).Drop()
      ensures State() == DisputeWithdrawalOutcome(old(State()), tx).GetOr(old(State()))
    {
      if clientId == tx.clientId {
        availableAmount := availableAmount + tx.amount;
        heldAmount := heldAmount - tx.amount;
        r := Success(());
      } else {
        r := Failure(InvalidClientId);
      }
    }

    method ResolveDeposit(tx: Transaction) returns (r: Result<(), AccountError>)
      modifies this
      ensures r == ResolveDepositOutcome(old(State()), tx).Drop()
      ensures State() == ResolveDepositOutcome(old(State()), tx).GetOr(old(State()))
    {
      if clientId == tx.clientId {
        availableAmount := availableAmount + tx.amount;
        heldAmount := heldAmount - tx.amount;
        r := Success(());
      } else {
        r := Failure(InvalidClientId);
      }
    }

    method ResolveWithdrawal(tx: Transaction) returns (r: Result<(), AccountError>)
      modifies this
      ensures r == ResolveWithdrawalOutcome(old(State()), tx).Drop()
      ensures State() == ResolveWithdrawalOutcome(old(State()), tx).GetOr(old(State()))
    {
      if clientId == tx.clientId {
        availableAmount := availableAmount - tx.amount;
        heldAmount := heldAmount + tx.amount;
        r := Success(());
      } else {
        r := Failure(InvalidClientId);
      }
    }

    method ChargebackDeposit(tx: Transaction) returns (r: Result<(), AccountError>)
      modifies this
      ensures r == ChargebackDepositOutcome(old(State()), tx).Drop()
      ensures State() == ChargebackDepositOutcome(old(State()), tx).GetOr(old(State()))
    {
      if clientId == tx.clientId {
        heldAmount := heldAmount - tx.amount;
        totalAmount := totalAmount - tx.amount;
        r := Success(());
      } else {
        r := Failure(InvalidClientId);
      }
    }

    method ChargebackWithdrawal(tx: Transaction) returns (r: Result<(), AccountError>)
      modifies this
      ensures r == ChargebackWithdrawalOutcome(old(State()), tx).Drop()
      ensures State() == ChargebackWithdrawalOutcome(old(State()), tx).GetOr(old(State()))
    {
      if clientId == tx.clientId {
        heldAmount := heldAmount + tx.amount;
        totalAmount := totalAmount + tx.amount;
        r := Success(());
      } else {
        r := Failure(InvalidClientId);
      }
    }
  }
}
