/** Optional values and results with an error, for fields that may be
    missing in a fetched record and for operations that can raise. */
module Wrappers {

  datatype Option<+T> = None | Some(value: T) {
    /** The value, or `default` when absent (Python's `x or default`
        for fields whose only falsy value is a missing one). */
    function GetOr(default: T): T {
      match this
      case Some(v) => v
      case None => default
    }
  }

  datatype Result<+T, +E> = Ok(value: T) | Err(error: E)
}
