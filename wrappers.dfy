/** Optional values (JavaScript `undefined`) and results of evaluations that may throw. */
module Wrappers {

  /** `None` stands for a JavaScript value that is `undefined` (or a nullable one that is `null`). */
  datatype Option<+T> = None | Some(value: T) {

    /** `x ?? default`, and the effect of a destructuring default `{ x = default }`. */
    function GetOr(default: T): (r: T) {
      match this
      case Some(v) => v
      case None => default
    }
  }

  /** The outcome of evaluating code that may throw a `TypeError`. */
  datatype Result<+R, +E> = Success(value: R) | Failure(error: E)
}
