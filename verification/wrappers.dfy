/** Failure-compatible wrappers shared by the rest of the model: `Option` for
    values Python represents with `None`, `Result` for operations that raise. */
module Wrappers {

  datatype Option<+T> = None | Some(value: T) {

    /** The value, or `default` when absent. */
    function GetOr(default: T): T {
      match this
      case Some(v) => v
      case None => default
    }
  }

  /** `Failure(error)` stands for a raised exception, `Success(value)` for a return. */
  datatype Result<+R, +E> = Success(value: R) | Failure(error: E)
}
