/** Option, Result and Outcome: the model's stand-ins for null and for thrown exceptions. */
module Wrappers {

  /** A value that may be absent (a JavaScript `null`/`undefined` or a Java `null`). */
  datatype Option<+T> = None | Some(value: T)

  /** The value of an operation that either returns normally or throws `error`. */
  datatype Result<+R, +E> = Success(value: R) | Failure(error: E)

  /** The outcome of an operation that returns nothing or throws `error`. */
  datatype Outcome<+E> = Pass | Fail(error: E)
}
