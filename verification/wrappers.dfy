/** Optional values (PHP's nullable types) and results (a value or a thrown exception). */
module Wrappers {

  /** A PHP value of type `?T`: `None` is `null`. */
  datatype Option<+T> = None | Some(value: T) {
    function GetOr(default: T): T {
      match this
      case Some(v) => v
      case None => default
    }
  }

  /** The outcome of a PHP call that either returns a value or throws. */
  datatype Result<+R, +E> = Ok(value: R) | Err(error: E)
}
