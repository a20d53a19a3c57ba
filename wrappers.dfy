/** Failure-carrying values used in place of the exceptions the modelled code raises. */
module Wrappers {

  datatype Option<+T> = None | Some(value: T)

  datatype Result<+T, +E> = Success(value: T) | Failure(error: E)

  /** The outcome of an operation that returns nothing but may raise. */
  datatype Outcome<+E> = Pass | Fail(error: E)
}
