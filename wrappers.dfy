/** Optional values and results shared by the whole model. */
module Wrappers {

  /** A value that may be missing: C#'s null, or the absent entry of a lookup. */
  datatype Option<+T> = None | Some(value: T) {
    function GetOr(default: T): T
    {
      match this
      case Some(v) => v
      case None => default
    }
  }

  /** The outcome of an operation that can throw: the value, or the exception's description. */
  datatype Result<+T> = Success(value: T) | Failure(error: string)
}
