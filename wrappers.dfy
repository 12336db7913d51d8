/** Option and Result, the two failure-carrying shapes the model uses. */
module Wrappers {

  /** A possibly absent value: a BOX2DF pointer that may be NULL. */
  datatype Option<+T> = None | Some(value: T)

  /** The outcome of an operation that can abort with an error report. */
  datatype Result<+T, +E> = Ok(value: T) | Err(error: E)
}
