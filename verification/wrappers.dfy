/** Failure-compatible wrappers shared by the cart model. */
module Wrappers {

  /** A value that may be absent: the "no rows" outcome of a single-row query. */
  datatype Option<+T> = None | Some(value: T)

  /** Either a value or an error of kind E. */
  datatype Result<+T, +E> = Ok(value: T) | Err(error: E)
}
