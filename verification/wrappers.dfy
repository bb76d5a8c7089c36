/** Option and Result, the two failure-carrying shapes the model uses in place of
    Go's nil slices and `(value, error)` pairs. */
module Wrappers {

  /** A value that may be missing; `None` stands for Go's nil. */
  datatype Option<+T> = None | Some(value: T) {

    /** The carried value, or `default` when there is none. */
    function GetOr(default: T): T {
      match this
      case Some(v) => v
      case None => default
    }
  }

  /** Either a value or the error that prevented it. */
  datatype Result<+T, +E> = Success(value: T) | Failure(error: E)
}
