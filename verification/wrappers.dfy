/** Failure-carrying wrappers shared by every module of the model. */
module Wrappers {

  /** An optional value: Go nil / SQL NULL / Ruby nil. */
  datatype Option<+T> = None | Some(value: T)

  /** A value or an error message, for Go's `(T, error)` returns. */
  datatype Result<+T, +E> = Ok(value: T) | Err(error: E)
}
