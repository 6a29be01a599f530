/** Failure-compatible wrappers shared by every module of the model. */
module Results {

  /** A value that may be absent (JavaScript `undefined`). */
  datatype Option<+T> = None | Some(value: T)

  /** The outcome of an operation that either yields a value or fails with an error
      (a thrown `Error` in the modelled code). */
  datatype Result<+R, +E> = Success(value: R) | Failure(error: E)
}
