/** Failure-compatible wrappers shared by the service and configuration models. */
module Wrappers {

  /** An optional value: the Go code's nil pointer or missing field. */
  datatype Option<+T> = None | Some(value: T)

  /** A value or an error: Go's `(value, error)` return pair. */
  datatype Result<+T, +E> = Success(value: T) | Failure(error: E)

  /** An error or nothing: Go's bare `error` return. */
  datatype Outcome<+E> = Pass | Fail(error: E)
}
