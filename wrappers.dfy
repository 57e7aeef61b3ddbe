/** Optional values and results shared by every module of the model. */
module Wrappers {

  /** An optional value: `None` stands for a JavaScript `undefined` or `null`. */
  datatype Option<+T> = None | Some(value: T) {
    function GetOr(default: T): T {
      match this
      case Some(v) => v
      case None => default
    }
  }

  /** The outcome of a validation: the parsed value or the list of failures. */
  datatype Result<+R, +E> = Ok(value: R) | Err(error: E)
}
