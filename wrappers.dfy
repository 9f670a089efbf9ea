/** Optional values and success/failure results shared by every module of the model. */
module Wrappers {

  /** A value that may be absent: TypeScript's `T | null` and `T | undefined`. */
  datatype Option<+T> = None | Some(value: T) {
    function GetOr(default: T): T {
      match this
      case Some(v) => v
      case None => default
    }
  }

  /** The outcome of an operation that either yields a value or fails with a reason. */
  datatype Result<+T, +E> = Ok(value: T) | Err(error: E)
}
