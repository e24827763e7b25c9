/** Failure-compatible results, standing for Go's `(value, error)` returns. */
module Wrappers {

  datatype Option<+T> = None | Some(value: T)

  /** A value, or the error that replaced it. */
  datatype Result<+T, +E> = Success(value: T) | Failure(error: E) {

    predicate IsFailure() {
      Failure?
    }

    function PropagateFailure<U>(): Result<U, E>
      requires Failure?
    {
      Failure(error)
    }

    function Extract(): T
      requires Success?
    {
      value
    }
  }

  /** An error or nothing: a Go function that returns only `error`. */
  datatype Outcome<+E> = Pass | Fail(error: E) {

    predicate IsFailure() {
      Fail?
    }

    function PropagateFailure<U>(): Result<U, E>
      requires Fail?
    {
      Failure(error)
    }
  }
}
