/** Option and Result, the two failure-carrying wrappers used throughout the model. */
module Wrappers {

  /** A Java reference that may be null. */
  datatype Option<+T> = None | Some(value: T)

  /** A value or the message of the exception the source would throw. */
  datatype Result<+R, +E> = Ok(value: R) | Err(error: E)
}
