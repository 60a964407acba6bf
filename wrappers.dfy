/** Option and Result, the failure-carrying values used throughout the model. */
module Wrappers {

  /** An optional value: Go's nil pointer fields (`*bool`, `*int`) become None. */
  datatype Option<+T> = None | Some(value: T)

  /** The `(value, error)` pair a Go function returns, with exactly one side set. */
  datatype Result<+R, +E> = Success(value: R) | Failure(error: E)
}
