/** Option and Result values used by every other module. */
module Wrappers {

  datatype Option<+T> = None | Some(value: T) {
    function GetOr(default: T): T {
      match this
      case Some(v) => v
      case None => default
    }
  }

  /** The outcome of a step that can fail with a human-readable message. */
  datatype Result<+T> = Ok(value: T) | Err(msg: string)
}
