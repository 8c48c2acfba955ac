/** Option and Result: null references and thrown exceptions of the Java code. */
module Wrappers {

  /** A possibly-null reference: `None` is Java's `null`. */
  datatype Option<+T> = None | Some(value: T) {
    function GetOr(default: T): T {
      match this
      case Some(v) => v
      case None => default
    }
  }

  /** A call that either returns a value or throws an exception described by `E`. */
  datatype Result<+T, +E> = Ok(value: T) | Err(error: E)
}
