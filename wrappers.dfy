/** The optional value and the value-or-error used across the model. */
module Wrappers {

  /** An optional value; in the JSON model `None` also stands for JavaScript's `undefined`. */
  datatype Option<+T> = None | Some(value: T)

  /** A value or the error that a thrown exception carries. */
  datatype Result<+T, +E> = Success(value: T) | Failure(error: E)
}
