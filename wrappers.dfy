/** Optional values and fallible results, used for every query or remote call
    whose outcome the model takes as an input. */
module Wrappers {

  datatype Option<+T> = None | Some(value: T) {
    function GetOr(default: T): T {
      match this
      case Some(v) => v
      case None => default
    }
  }

  /** A remote call either returns data or reports an error message. */
  datatype Result<+T> = Ok(value: T) | Err(message: string)

  /** An awaited promise either settles with a value or rejects (throws). */
  datatype Settled<+T> = Resolved(value: T) | Rejected
}
