/** Option and Result values used where the Go code returns a value together with an error. */
module Wrappers {

  datatype Option<+T> = None | Some(value: T)

  /** A value or an error message, for the Go pattern `(value, error)`. */
  datatype Result<+T> = Success(value: T) | Failure(error: string)

  /** A bare Go `error` return: `nil` (Pass) or an error carrying its message. */
  datatype Outcome = Pass | Fail(error: string)
}
