/** The `Option` and `Result` datatypes shared by the model. */
module Wrappers {

  /** A value that may be missing: Java's nullable reference. */
  datatype Option<+T> = None | Some(value: T)

  /** Either a result or the failure that aborted the computation. */
  datatype Result<+T, +E> = Ok(value: T) | Err(error: E)
}
