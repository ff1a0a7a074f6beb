/** Option and Result values used throughout the model.
    Every backend call is abstracted as a `Result`: the payload on success,
    or the message of the rejected promise on failure. */
module Wrappers {

  datatype Option<+T> = None | Some(value: T) {
    function GetOr(default: T): T {
      match this
      case Some(v) => v
      case None => default
    }
  }

  datatype Result<+T> = Ok(value: T) | Err(message: string)

  /** The unit payload of calls whose response body the front-end ignores. */
  datatype Unit = Unit
}
