/** Failure-compatible wrappers: Java's nullable references and thrown exceptions as values. */
module Wrappers {

  /** A Java reference that may be null. */
  datatype Option<+T> = None | Some(value: T) {

    /** `Optional.ofNullable(x).orElse(default)` */
    function GetOr(default: T): T {
      match this
      case Some(v) => v
      case None => default
    }
  }

  /** A computation that returns a value or throws. */
  datatype Result<+R, +E> = Success(value: R) | Failure(error: E)

  /** A `void` computation that returns normally or throws. */
  datatype Outcome<+E> = Pass | Fail(error: E)
}
