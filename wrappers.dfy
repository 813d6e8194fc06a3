/** Option and Result, the two shapes the model uses for Python's `None` and for
    operations that either return a value or raise. */
module Wrappers {

  datatype Option<+T> = None | Some(value: T) {
    /** The wrapped value, or `default` when absent. */
    function GetOr(default: T): T {
      match this
      case Some(v) => v
      case None => default
    }
  }

  /** `Failure` carries the text of the exception the source would raise or catch. */
  datatype Result<+T, +E> = Success(value: T) | Failure(error: E)
}
