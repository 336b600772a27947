/** Option and Result, used for values the source may fail to produce. */
module Wrappers {

  datatype Option<+T> = None | Some(value: T) {
    /** The value, or `default` when there is none. */
    function GetOr(default: T): T {
      match this
      case Some(v) => v
      case None => default
    }
  }

  /** The outcome of an operation that may throw in the source. */
  datatype Result<+T, +E> = Ok(value: T) | Err(error: E)
}
