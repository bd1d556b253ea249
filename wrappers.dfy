/** Small failure-carrying datatypes shared by every module of the model. */
module Wrappers {

  /** Python's `None`-or-value. */
  datatype Option<+T> = None | Some(value: T)
  {
    function GetOr(default: T): T
    {
      match this
      case Some(v) => v
      case None => default
    }
  }

  /** The value of a call that either returns or raises an exception with a message. */
  datatype Result<+T> = Success(value: T) | Failure(error: string)
}
