/** `Option` and `Result`, used across the screens. */
module Wrappers {

  /** A value that may be missing (`null`, `undefined`, a failed lookup). */
  datatype Option<+T> = None | Some(value: T) {
    function GetOr(default: T): T {
      match this
      case Some(v) => v
      case None => default
    }
  }

  /** The outcome of an operation that either yields a value or raises an error. */
  datatype Result<+T, +E> = Success(value: T) | Failure(error: E)
}
