/** Optional values and results used throughout the model. */
module Wrappers {

  /** A value that may be absent (a missing dictionary key, a `None` return). */
  datatype Option<+T> = None | Some(value: T) {
    function GetOr(default: T): T {
      match this
      case Some(v) => v
      case None => default
    }
  }

  /** The outcome of a step that may raise: `Raised` stands for a Python exception. */
  datatype Result<+T> = Ok(value: T) | Raised
}
