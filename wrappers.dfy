/** Optional values and results with an error message, as used throughout the model. */
module Wrappers {

  datatype Option<+T> = None | Some(value: T) {
    /** The carried value, or `default` when there is none. */
    function GetOr(default: T): T {
      match this
      case Some(v) => v
      case None => default
    }
  }

  /** Python code that raises is modelled by `Err(message)`, where `message` is `str(e)`. */
  datatype Result<+T> = Ok(value: T) | Err(message: string)
}
