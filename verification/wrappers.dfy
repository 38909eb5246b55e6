/** Optional values and results shared by the model: an optional value for
    JavaScript's `undefined`, and a result for computations that the scripts
    leave outside the real numbers. */
module Wrappers {

  /** A value that may be absent, as `obj?.field` may yield `undefined`. */
  datatype Option<+T> = None | Some(value: T) {

    /** The value, or `default` when absent. */
    function GetOr(default: T): (r: T) {
      match this
      case Some(v) => v
      case None => default
    }
  }

  /** Either a value or the reason no value could be computed. */
  datatype Result<+R, +E> = Success(value: R) | Failure(error: E)
}
