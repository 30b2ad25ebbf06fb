/** Failure-carrying values used across the model. */
module Wrappers {

  /** An optional value: `None` stands for a JavaScript property that is absent (undefined or null). */
  datatype Option<+T> = None | Some(value: T)

  /** The value of an operation that either yields a value or throws with a message. */
  datatype Result<+R, +E> = Success(value: R) | Failure(error: E)

  /** The value of an operation that yields nothing or throws with a message. */
  datatype Outcome<+E> = Pass | Fail(error: E)
}
