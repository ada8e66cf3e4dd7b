/** Failure-carrying values used across the model: `Option` for Go's
    "value or nil", `Outcome` for a Go `error` return (nil or a message). */
module Wrappers {

  datatype Option<+T> = None | Some(value: T)

  /** A Go `error`: `Pass` is nil, `Fail` carries the error text. */
  datatype Outcome = Pass | Fail(error: string)

  datatype Result<+R, +E> = Success(value: R) | Failure(error: E)
}
