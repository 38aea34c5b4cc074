/** Option and Result, the failure-carrying values the model uses in place of
    PHP's `null` returns and thrown exceptions. */
module Wrappers {

  datatype Option<+T> = None | Some(value: T)

  datatype Result<+T, +E> = Ok(value: T) | Err(error: E)

  /** The result of an operation that returns nothing (PHP `void`). */
  datatype Unit = Unit
}
