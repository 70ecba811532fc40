/** Option and Result types shared by every module of the model. */
module Wrappers {

  datatype Option<+T> = None | Some(value: T) {
    function GetOr(default: T): T {
      match this
      case Some(v) => v
      case None => default
    }
  }

  /** The Python exceptions that the modelled code lets escape to its caller. */
  datatype PyError = TypeError | ValueError | AttributeError

  /** The outcome of a Python call: a value, or an exception that propagates out of it. */
  datatype Result<+T> = Ok(value: T) | Raised(error: PyError)
}
