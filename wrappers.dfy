/** Option and Result values standing in for Python's None returns and raised exceptions. */
module Wrappers {
  datatype Option<T> = None | Some(value: T)
  {
    function GetOr(default: T): (r: T)
      ensures Some? ==> r == value
      ensures None? ==> r == default
    {
      match this
      case Some(v) => v
      case None => default
    }
  }

  /** `Err` carries the message of the exception the Python code raises. */
  datatype Result<T> = Ok(value: T) | Err(error: string)
}
