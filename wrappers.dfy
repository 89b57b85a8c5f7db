/** Optional values: Odoo's `False` for an unset field or a missing record. */
module Wrappers {

  datatype Option<+T> = None | Some(value: T) {
    /** The value, or `default` when unset: Python's `x or default` on a possibly unset field. */
    function GetOr(default: T): T {
      match this
      case Some(v) => v
      case None => default
    }
  }

  /** Outcome of an operation that raises a user-facing error in the source. */
  datatype Result<+T, +E> = Ok(value: T) | Err(error: E)
}
