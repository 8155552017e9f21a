/** Small failure-carrying datatypes shared by the model. */
module Wrappers {

  /** A value that may be absent: C#'s `null` for a reference result. */
  datatype Option<+T> = None | Some(value: T) {
    function GetOr(default: T): T {
      match this
      case Some(v) => v
      case None => default
    }
  }

  /** The outcome of a call that may raise a .NET exception. Every exception
      in the modelled code reaches a catch-all in its caller, so only the fact
      that one was raised matters, not its type. */
  datatype Completion<+T> = Returned(value: T) | Threw
}
