/** Optional values and results, used wherever the source returns None or an error. */
module Wrappers {
  datatype Option<T> = None | Some(value: T)
  {
    function GetOr(default: T): T
    {
      match this
      case None => default
      case Some(v) => v
    }
  }

  /** The outcome of an operation that either produces a value or fails with a message. */
  datatype Result<T> = Ok(value: T) | Err(error: string)
}
