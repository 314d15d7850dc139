/** Option and Result values shared by every module of the model. */
module Wrappers {
  /** A value that may be absent (`undefined`/`null` in the source). */
  datatype Option<T> = None | Some(value: T)

  /** The outcome of an operation that may throw: a value or the error's message. */
  datatype Result<T> = Success(value: T) | Failure(error: string)
}
