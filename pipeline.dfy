/** The two passes run one after the other, as the engine's tests run them
    (src/payment_engine.rs:103-106). */
module Pipeline {
  import opened Common
  import opened Transactions
  import opened RawRecords
  import opened Accounts
  import opened Preprocessing
  import opened Engine

  /** Preprocess the records, then replay the resulting history. */
  function Run(raws: seq<RawTransaction>): (r: Result<Ledger, EngineError>)
    // a record the first pass rejects stops the run before any account is touched
    ensures PreprocessSpec(raws).Failure? ==> r == Failure(FormatFailure(PreprocessSpec(raws).error))
    // once the first pass succeeds, every history id is in the table, so only an account can fail
    ensures PreprocessSpec(raws).Success? && r.Failure? ==> r.error.AccountFailure?
  {
    PreprocessInvariant(raws);
    match PreprocessSpec(raws)
    case Failure(e) => Failure(FormatFailure(e))
    case Success(t) => Replay(t.history, t.transactions)
  }

  /** After a successful run every account is balanced and filed under its
      own id, and there is an account for exactly the clients of the
      transaction records. */
  lemma RunSound(raws: seq<RawTransaction>)
    requires Run(raws).Success?
    ensures AccountsSound(Run(raws).value.accounts)
    ensures Run(raws).value.accounts.Keys == ClientsOf(TransactionIds(raws), PreprocessSpec(raws).value.transactions)
  {
    PreprocessInvariant(raws);
    var t := PreprocessSpec(raws).value;
    ReplayInvariant(t.history, t.transactions);
  }
}
