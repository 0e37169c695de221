/** Failure-compatible wrappers shared by the model: an optional value (a Java
    reference that may be null) and a result that is either a value or the
    error that aborts application startup. */
module Wrappers {

  /** A value that may be absent; `None` stands for Java's `null`. */
  datatype Option<+T> = None | Some(value: T) {

    /** The wrapped value, or `default` when there is none. */
    function GetOr(default: T): T {
      match this
      case Some(v) => v
      case None => default
    }
  }

  /** Either the value an operation computed or the error it threw. */
  datatype Result<+T, +E> = Ok(value: T) | Err(error: E)
}
