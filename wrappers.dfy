/** Optional values and results with an error, shared by the front-end modules. */
module Wrappers {

  /** A value that may be missing (JavaScript's `undefined`/`null`, or a NaN that `|| 0` replaces). */
  datatype Option<+T> = None | Some(value: T) {

    /** The wrapped value, or `default` when there is none. */
    function GetOr(default: T): T {
      match this
      case Some(v) => v
      case None => default
    }
  }

  /** The outcome of an operation that can throw. */
  datatype Result<+R, +E> = Success(value: R) | Failure(error: E)
}
