/** Identifiers and failure-compatible results shared by the other modules. */
module Wrappers {
  /** A primary key; rows are only ever compared by it. */
  datatype Uuid = Uuid(value: nat)

  datatype Option<+T> = None | Some(value: T)

  /** A value, or the exception that was raised instead. */
  datatype Result<+T, +E> = Ok(value: T) | Err(error: E) {
    predicate IsFailure() {
      Err?
    }

    function PropagateFailure<U>(): Result<U, E>
      requires Err?
    {
      Err(error)
    }

    function Extract(): T
      requires Ok?
    {
      value
    }
  }

  /** The outcome of a statement that returns nothing; a failure propagates as a `Result`. */
  datatype Attempt<+E> = Done | Raised(error: E) {
    predicate IsFailure() {
      Raised?
    }

    function PropagateFailure<U>(): Result<U, E>
      requires Raised?
    {
      Err(error)
    }
  }
}
