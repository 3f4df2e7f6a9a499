/** Option and Result, the two failure-carrying shapes the rest of the model uses. */
module Wrappers {

  /** A value that may be absent: a nullable column, an optional request field. */
  datatype Option<+T> = None | Some(value: T)

  /** Either a success value or the exception an operation throws. */
  datatype Result<+T, +E> = Ok(value: T) | Err(error: E)
}
