/** Option and Result, the two failure-carrying datatypes the model uses. */
module Wrappers {

  /** A value that may be absent (`undefined` in the program). */
  datatype Option<+T> = None | Some(value: T)

  /** The value of a computation, or the error the program would throw. */
  datatype Result<+T, +E> = Ok(value: T) | Err(error: E)
}
