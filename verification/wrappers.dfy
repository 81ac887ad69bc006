/** Two plain sum types: `Option` stands in for a Java reference that may be
    null, `Result` for a call that either returns a value or throws. */
module Wrappers {

  /** A value that may be absent; `None` is Java's `null`. */
  datatype Option<+T> = None | Some(value: T)

  /** Either a value or the error a Java method would have thrown. */
  datatype Result<+R, +E> = Success(value: R) | Failure(error: E)
}
