/** Optional values and results of calls that may raise. */
module Wrappers {

  /** A value that may be absent: a missing dictionary key, a missing user. */
  datatype Option<+T> = None | Some(value: T) {

    /** The value, or `default` when absent (Python's `dict.get(key, default)`). */
    function GetOr(default: T): T
    {
      match this
      case Some(v) => v
      case None => default
    }
  }

  /** What a call into an external service did: returned a value, or raised an
      exception whose `str(e)` is `error`. */
  datatype Result<+R> = Ok(value: R) | Raised(error: string)
}
