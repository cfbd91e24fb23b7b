/** Failure-carrying values shared by every module of the model. */
module Common {

  /** A value that may be absent (a C# null or a missing JSON property). */
  datatype Option<+T> = None | Some(value: T)

  /** The outcome of an operation that may throw: `Failure` carries the exception's message. */
  datatype Result<+T, +E> = Success(value: T) | Failure(error: E)
}
