/** Optional values and success-or-error results, used for fields that a JSON
    document may leave out and for calls to the upstream providers that may fail. */
module Wrappers {

  /** A JSON field that is present (`Some`) or absent, `undefined` or `null` (`None`). */
  datatype Option<+T> = None | Some(value: T) {
    function GetOr(default: T): T {
      match this
      case Some(v) => v
      case None => default
    }
  }

  /** The outcome of an upstream call: the provider's JSON, or the error it raised. */
  datatype Result<+R, +E> = Ok(value: R) | Err(error: E)
}
