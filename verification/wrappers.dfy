/** Failure-carrying datatypes shared by the whole model. */
module Wrappers {

  /** Python's "a value or None". */
  datatype Option<+T> = None | Some(value: T)

  /** The outcome of an operation that may raise: a value or the exception it raises. */
  datatype Result<+R, +E> = Ok(value: R) | Err(error: E)
}
