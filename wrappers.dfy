/** Failure-compatible wrappers shared by every module of the model. */
module Wrappers {

  /** An optional value (Python's `X | None`). */
  datatype Option<+T> = None | Some(value: T)

  /** The outcome of an operation that either returns a value or raises. */
  datatype Result<+T, +E> = Success(value: T) | Failure(error: E)
}
