/** Optional values and results with an error, used for Go's nil-able
    values and its `(value, error)` returns. */
module Wrappers {

  datatype Option<+T> = None | Some(value: T) {

    /** The value, or `default` when there is none. */
    function GetOr(default: T): T {
      match this
      case Some(v) => v
      case None => default
    }
  }

  /** A value, or the text of the error that replaced it. */
  datatype Result<+R> = Success(value: R) | Failure(error: string)
}
