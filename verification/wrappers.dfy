/** Option and Result, the two failure-carrying wrappers the model uses for
    JavaScript's `undefined`/`null` and for collaborator calls that may throw. */
module Wrappers {

  datatype Option<+T> = None | Some(value: T) {
    function GetOr(default: T): T {
      match this
      case Some(v) => v
      case None => default
    }
  }

  datatype Result<+T, +E> = Ok(value: T) | Err(error: E)
}
