/** Option and Result, the two failure-carrying datatypes used across the model. */
module Wrappers {

  /** A value that may be absent (Python's `None`). */
  datatype Option<+T> = None | Some(value: T)

  /** The outcome of an operation that can raise: a value, or the exception it raises. */
  datatype Result<+T, +E> = Success(value: T) | Failure(error: E)
}
