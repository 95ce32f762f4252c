/** Failure-compatible value wrappers used across the model. */
module Wrappers {

  /** An optional value: the model's stand-in for a Go pointer that may be nil. */
  datatype Option<+T> = None | Some(value: T)

  /** A value or an error, as a Go `(value, error)` pair. */
  datatype Result<+T, +E> = Success(value: T) | Failure(error: E)
}
