/** Option and Result, the two failure-carrying shapes the handlers need. */
module Wrappers {

  /** A JavaScript value that may be `undefined`. */
  datatype Option<+T> = None | Some(value: T)

  /** A handler outcome: a response, or the error it throws. */
  datatype Result<+T, +E> = Ok(value: T) | Err(error: E)
}
