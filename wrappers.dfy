/** Failure-compatible wrappers shared by the witness and version modules. */
module Wrappers {

  /** A value that may be absent; a failure when absent, so it works with `:-`. */
  datatype Option<+T> = None | Some(value: T) {
    predicate IsFailure() {
      None?
    }

    function PropagateFailure<U>(): Option<U>
      requires None?
    {
      None
    }

    function Extract(): T
      requires Some?
    {
      value
    }
  }

  /** The value of an operation, or the error it returned. */
  datatype Result<+T, +E> = Ok(value: T) | Err(error: E)

  /** The outcome of an operation that returns only an error (Go's bare `error`). */
  datatype Outcome<+E> = Pass | Fail(error: E)
}
