/** Optional values and the outcome of a Python call that may raise. */
module Wrappers {

  /** Python's `None` or a value. */
  datatype Option<+T> = None | Some(value: T) {

    /** The value, or `default` when there is none (Python's `x or default` on a present value). */
    function GetOr(default: T): T {
      match this
      case Some(v) => v
      case None => default
    }
  }

  /** What a Python call did: it returned a (possibly `None`) value, or it raised. */
  datatype CallResult<+T> = Returned(value: Option<T>) | Raised
}
