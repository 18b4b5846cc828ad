/** Optional values, standing for Python's `None`-or-value. */
module Wrappers {

  datatype Option<+T> = None | Some(value: T) {
    function GetOr(default: T): T {
      match this
      case Some(v) => v
      case None => default
    }
  }

  /** An operation that either passes or fails with an error value (a raised exception). */
  datatype Outcome<+E> = Pass | Fail(error: E)
}
