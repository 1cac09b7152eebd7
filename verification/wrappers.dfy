/** Values that may be missing.

    `Option` stands for a JavaScript value that can be `undefined`, `null` or
    `NaN` as well as an ordinary value; `Result` stands for a call that either
    returns or throws.
 */
module Wrappers {

  datatype Option<+T> = None | Some(value: T) {

    /** The value, or `default` when there is none. */
    function GetOr(default: T): T {
      match this
      case Some(v) => v
      case None => default
    }
  }

  datatype Result<+R, +E> = Success(value: R) | Failure(error: E)
}
