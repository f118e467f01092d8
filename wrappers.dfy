/** Presence and failure values used across the model. */
module Wrappers {

  /** An optional value: JavaScript's `null` / `undefined` versus a present value. */
  datatype Option<+T> = None | Some(value: T) {
    function GetOr(default: T): T {
      match this
      case Some(v) => v
      case None => default
    }
  }

  /** The only failure the modelled functions raise themselves: a required argument is missing. */
  datatype Error = MissingFields

  /** The outcome of a call that can throw. */
  datatype Result<+T> = Ok(value: T) | Err(error: Error)
}
