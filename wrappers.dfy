/** Option and Result, for the source's `None` returns, `dict.get` defaults and error paths. */
module Wrappers {

  datatype Option<+T> = None | Some(value: T) {
    /** `value if present else default`, as Python's `d.get(k, default)`. */
    function GetOr(default: T): T {
      match this
      case Some(v) => v
      case None => default
    }
  }

  datatype Result<+R, +E> = Success(value: R) | Failure(error: E)
}
