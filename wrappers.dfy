/** Failure-carrying wrappers used by the model: an optional value and a result with an error. */
module Wrappers {

  /** A value that may be absent (Python's `Optional[T]`, `None` being absent). */
  datatype Option<+T> = None | Some(value: T)

  /** The outcome of an operation that either produces a value or raises an error. */
  datatype Result<+T, +E> = Success(value: T) | Failure(error: E)
}
