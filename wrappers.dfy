/** Option and Result, the two wrappers the model uses for missing values and thrown errors. */
module Wrappers {

  /** A value that may be missing: Java's `null` and an empty `Optional` both become None. */
  datatype Option<+T> = None | Some(value: T)

  /** A value or the error that prevented it. */
  datatype Result<+T, +E> = Ok(value: T) | Err(error: E)
}
