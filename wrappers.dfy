/** Optional values and results shared by the chat client and the routing workflow. */
module Wrappers {

  /** A value that may be absent (`undefined` in the source). */
  datatype Option<+T> = None | Some(value: T) {
    function GetOr(default: T): T {
      match this
      case Some(v) => v
      case None => default
    }
  }

  /** The outcome of a step that may fail (a rejected promise or a thrown error in the source). */
  datatype Result<+T, +E> = Ok(value: T) | Err(error: E)
}
