/** Option and Result, the two failure-carrying value shapes the rest of the model uses. */
module Wrappers {

  /** A value that may be absent: JavaScript `null`/`undefined` on one side, a value on the other. */
  datatype Option<+T> = None | Some(value: T)

  /** The outcome of an operation that either returns a value or throws an error. */
  datatype Result<+T, +E> = Ok(value: T) | Err(error: E)
}
