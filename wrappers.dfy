/** The optional and fallible values the rest of the model passes around. */
module Wrappers {

  /** A value that may be missing (`null` or `undefined` in the client, `None` in the pipeline). */
  datatype Option<+T> = None | Some(value: T)

  /** The outcome of an operation that may throw: its value, or the error it raised. */
  datatype Result<+R, +E> = Success(value: R) | Failure(error: E)
}
