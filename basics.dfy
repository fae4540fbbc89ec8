/** Option and Result, standing in for Python's `None` and for a raised exception. */
module Basics {

  datatype Option<+T> = None | Some(value: T) {
    function GetOr(default: T): T
    {
      match this
      case Some(v) => v
      case None => default
    }
  }

  /** `Err` carries the message of the exception the source raises. */
  datatype Result<+T> = Ok(value: T) | Err(message: string)
}
