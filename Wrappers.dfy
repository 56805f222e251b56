/** Small failure-carrying datatypes shared by every module of the model. */
module Wrappers {

  /** Python's `Optional[T]`: `None` or a present value. */
  datatype Option<+T> = None | Some(value: T) {
    function GetOr(default: T): T {
      match this
      case Some(v) => v
      case None => default
    }
  }

  /** What a call into the database (or another foreign routine) produced:
      the value it returned, or the message of the exception it raised. */
  datatype Outcome<+T> = Returned(value: T) | Raised(message: string)
}
