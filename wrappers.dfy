/** Option and Result, shared by the coupon and QR modules. */
module Wrappers {

  datatype Option<+T> = None | Some(value: T)

  /** The outcome of a request handler: a value, or the machine-readable error kind. */
  datatype Result<+T, +E> = Ok(value: T) | Err(error: E)
}
