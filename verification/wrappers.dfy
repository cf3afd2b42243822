/** Failure-carrying return values for the error paths of the model. */
module Wrappers {

  /** A value that may be absent; `None` stands for numpy's NaN results. */
  datatype Option<+T> = None | Some(value: T)

  /** The value of a call, or the exception the call raises. */
  datatype Result<+T, +E> = Ok(value: T) | Err(error: E)
}
