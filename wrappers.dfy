/** Option and Result values shared by the other modules. */
module Wrappers {

  /** Python's `None` or a present value. */
  datatype Option<+T> = None | Some(value: T)

  /** A value, or the text of the exception that a library call raised. */
  datatype Result<+T, +E> = Ok(value: T) | Err(error: E)
}
