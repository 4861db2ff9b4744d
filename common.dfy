/** Shared value types of the ledger: success/failure wrappers, the integer
    widths of client and transaction ids, and fixed-point amounts. */
module Common {

  datatype Option<T> = None | Some(value: T)

  /** The outcome of a fallible operation: a value or an error. */
  datatype Result<T, E> = Success(value: T) | Failure(error: E) {

    /** The value on success, otherwise `default` (an operation that fails
        leaves its input as it was). */
    function GetOr(default: T): T {
      match this
      case Success(v) => v
      case Failure(_) => default
    }

    /** Forgets the value and keeps only whether, and why, the operation failed. */
    function Drop(): Result<(), E> {
      match this
      case Success(_) => Success(())
      case Failure(e) => Failure(e)
    }
  }

  /** Client ids are unsigned 16-bit integers. */
  type ClientId = c: int | 0 <= c < 0x1_0000

  /** Transaction ids are unsigned 32-bit integers. */
  type TxId = t: int | 0 <= t < 0x1_0000_0000

  /** Monetary amounts in ten-thousandths of a currency unit (1.5 is 15000). */
  type Amount = int

  predicate NoDuplicates<T(==)>(s: seq<T>) {
    forall i, j :: 0 <= i < j < |s| ==> s[i] != s[j]
  }

  lemma NoDuplicatesPrefix<T>(s: seq<T>, t: seq<T>)
    requires NoDuplicates(s + t)
    ensures NoDuplicates(s)
  {
    forall i, j | 0 <= i < j < |s| ensures s[i] != s[j] {
      assert s[i] == (s + t)[i] && s[j] == (s + t)[j];
    }
  }
}
