/** Failure-compatible wrappers used across the model: Go's nil-or-value and value-or-error pairs. */
module Wrappers {

  /** A value that may be absent (a nil pointer or nil interface in Go). */
  datatype Option<+T> = None | Some(value: T)

  /** A value or an error (Go's `(T, error)` return pair). */
  datatype Result<+R, +E> = Success(value: R) | Failure(error: E)
}
