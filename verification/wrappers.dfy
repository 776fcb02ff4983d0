/** Failure-compatible wrappers shared by the models of the two workflows. */
module Wrappers {

  /** Python's `None`-or-value: an optional feedback string, or a completion reply that may be missing. */
  datatype Option<+T> = None | Some(value: T) {

    /** The wrapped value, or `default` when there is none. */
    function GetOr(default: T): T {
      match this
      case Some(v) => v
      case None => default
    }
  }

  /** Either a normal return value or the error that ended the computation. */
  datatype Result<+T, +E> = Ok(value: T) | Err(error: E)
}
