/** Option and Result, the two wrappers the model uses. */
module Wrappers {

  /** A value that may be missing: the TypeScript `T | null`. */
  datatype Option<+T> = None | Some(value: T)

  /** The outcome of a `try` block: a value, or what was thrown. */
  datatype Result<+R, +E> = Success(value: R) | Failure(error: E)
}
