/** Option and Result, the two failure-carrying wrappers the model uses. */
module Wrappers {

  /** A value that may be absent: a null cell, an unset environment variable. */
  datatype Option<+T> = None | Some(value: T) {
    /** The value, or `default` when absent (pandas `fillna(default)` on one cell). */
    function GetOr(default: T): T {
      match this
      case Some(v) => v
      case None => default
    }
  }

  /** The outcome of a step that may raise. */
  datatype Result<+T, +E> = Success(value: T) | Failure(error: E)
}
