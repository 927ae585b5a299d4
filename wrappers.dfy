/** The nullable and the may-fail values the application passes around. */
module Wrappers {

  /** A value that may be absent: TypeScript's `T | null`. */
  datatype Option<+T> = None | Some(value: T)

  /** The outcome of a validator: a value, or the message of the error it throws. */
  datatype Result<+R, +E> = Success(value: R) | Failure(error: E)
}
