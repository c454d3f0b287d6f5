/** Small result types shared by the model. */
module Wrappers {

  /** A value that may be absent: an unset field, a failed lookup. */
  datatype Option<+T> = None | Some(value: T)

  /** The value of a step that either succeeds or fails with an error. */
  datatype Result<+T, +E> = Success(value: T) | Failure(error: E)

  /** A Go call that either returns or panics (a nil-pointer dereference). */
  datatype Crashable<+T> = Returned(value: T) | Panicked
}
