/** Failure-carrying values shared by the other modules. */
module Wrappers {

  /** A value that may be absent (Python's `Optional`, a nullable column). */
  datatype Option<+T> = None | Some(value: T)

  /** The outcome of an operation that may raise: its value, or the raised error's message. */
  datatype Result<+T> = Ok(value: T) | Err(error: string)
}
