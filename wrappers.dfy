/** Small failure-carrying datatypes shared by the whole model. */
module Wrappers {

  /** Python's `None` / a present value. */
  datatype Option<+T> = None | Some(value: T) {
    function GetOr(default: T): T {
      match this
      case Some(v) => v
      case None => default
    }
  }

  /** The outcome of a call into a collaborator that may raise:
      either its value or the text of the exception (`str(e)`). */
  datatype Outcome<+T> = Ok(value: T) | Raised(message: string)
}
