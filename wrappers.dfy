/** Option and Result, the two failure-carrying values used across the model. */
module Wrappers {

  /** `None` stands for Python's `None` or for an absent file. */
  datatype Option<+T> = None | Some(value: T)

  /** `Err` stands for an exception the source lets escape to the top level. */
  datatype Result<+T, +E> = Ok(value: T) | Err(error: E)
}
