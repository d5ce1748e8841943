/** Failure-carrying wrappers used in place of Go's nil values, panics and error returns. */
module Wrappers {

  /** A value that may be absent (Go's nil interface or nil pointer). */
  datatype Option<+T> = None | Some(value: T)

  /** A computation that either yields a value or fails with an error. */
  datatype Result<+T, +E> = Success(value: T) | Failure(error: E)

  /** A check that either passes or fails with an error. */
  datatype Outcome<+E> = Pass | Fail(error: E)
}
