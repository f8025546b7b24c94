/** Failure-compatible wrappers and the exceptions that the ledger engine raises. */
module Base {

  datatype Option<+T> = None | Some(value: T) {
    function GetOr(default: T): T {
      match this
      case Some(v) => v
      case None => default
    }
  }

  datatype Result<+R, +E> = Success(value: R) | Failure(error: E) {
    predicate IsFailure() {
      Failure?
    }

    function PropagateFailure<U>(): Result<U, E>
      requires Failure?
    {
      Failure(error)
    }

    function Extract(): R
      requires Success?
    {
      value
    }
  }

  /** The outcome of an operation that returns nothing or raises. */
  datatype Outcome<+E> = Pass | Fail(error: E)

  /** Why a ValueError was raised. */
  datatype Reason =
    | AmountNotPositive        // "Amount must be positive"
    | TargetNotPositive        // "Target amount must be positive"
    | PriorityOutOfRange       // "Priority must be between 1 and 5"
    | ContributionNotPositive  // "Contribution amount must be positive"
    | InvalidDataFormat        // "Invalid data format"
    | UnsupportedExport        // "Unsupported export format"
    | UnsupportedImport        // "Unsupported import format"
    | NotAFloat                // float() of a malformed cell
    | NotAnInt                 // int() of a malformed cell
    | WrongPartCount           // tuple unpacking of a split with other than two parts

  /** The Python exceptions the core can raise, one constructor per exception class. */
  datatype Error =
    | ValueError(reason: Reason)
    | TypeError       // float() of, or `in` applied to, a missing (None) cell
    | AttributeError  // a method called on None
    | IndexError      // a split produced fewer parts than the index used
    | KeyError(key: string)
}
