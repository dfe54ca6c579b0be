// Option and Result values shared by every module of the model.
module Wrappers {
  datatype Option<T> = None | Some(value: T)
  {
    /** The wrapped value, or `d` when there is none (`x ?? d`). */
    function GetOr(d: T): T
    {
      match this
      case None => d
      case Some(v) => v
    }
  }

  /** A thrown error or a rejected request, as a value. */
  datatype Result<T, E> = Ok(value: T) | Err(error: E)
}
