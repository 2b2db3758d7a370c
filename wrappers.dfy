/** Failure-carrying result types used in place of PHP's `false` returns and exceptions. */
module Wrappers {

  /** A value, or its absence (PHP functions that return `false` instead of a value). */
  datatype Option<+T> = None | Some(value: T)

  /** A value, or the error that an operation raised instead. */
  datatype Result<+T, +E> = Success(value: T) | Failure(error: E)

  /** The outcome of an operation that returns nothing but may raise an error. */
  datatype Outcome<+E> = Pass | Fail(error: E)
}
