/** Option and Result, for the error returns of the Go code. */
module Wrappers {

  datatype Option<+T> = None | Some(value: T)

  /** A Go `(T, error)` pair: either a value or the error's message. */
  datatype Result<+T> = Ok(value: T) | Err(msg: string)
}
