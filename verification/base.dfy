/** Failure-carrying wrappers shared by the other modules. */
module Base {

  /** A value that may be absent, as `null` is used for absent state. */
  datatype Option<+T> = None | Some(value: T)

  /** The outcome of a validation that either succeeds with a value or reports why it did not. */
  datatype Result<+R, +E> = Success(value: R) | Failure(error: E)
}
