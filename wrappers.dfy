/** Failure-compatible wrappers used throughout the model. */
module Wrappers {

  /** An optional value; models a Go pointer that may be nil. */
  datatype Option<+T> = None | Some(value: T)

  /** A value or an error; models Go's `(value, err)` returns. */
  datatype Result<+R, +E> = Success(value: R) | Failure(error: E)
}
