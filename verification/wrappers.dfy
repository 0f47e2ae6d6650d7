/** Failure-compatible wrappers shared by the whole model. */
module Wrappers {

  /** A value that may be absent: a missing map entry, a `null` field, or a
      number that JavaScript would have turned into `NaN`. */
  datatype Option<+T> = None | Some(value: T) {

    /** The wrapped value, or `default` when absent (the `x || d` and
        `x ?? d` fallbacks of the dashboard). */
    function GetOr(default: T): T {
      match this
      case Some(v) => v
      case None => default
    }
  }

  /** Either a value or an error message. */
  datatype Result<+T, +E> = Ok(value: T) | Err(error: E)
}
