/** Failure-compatible wrappers: an absent value, and the result of an
    operation that either succeeds or raises. */
module Wrappers {

  /** A value that may be absent (Python's `None`, or an attribute never set). */
  datatype Option<+T> = None | Some(value: T)

  /** The outcome of a decoder or builder: a value, or the exception it raises. */
  datatype Result<+T, +E> = Success(value: T) | Failure(error: E) {
    predicate IsFailure() { Failure? }

    function PropagateFailure<U>(): Result<U, E>
      requires Failure?
    {
      Failure(error)
    }

    function Extract(): T
      requires Success?
    {
      value
    }
  }

  /** The outcome of a check that returns nothing or raises. */
  datatype Outcome<+E> = Pass | Fail(error: E) {
    predicate IsFailure() { Fail? }

    function PropagateFailure<U>(): Result<U, E>
      requires Fail?
    {
      Failure(error)
    }
  }
}
