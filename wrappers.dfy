/** The optional value the source expresses with `null`, `undefined` or a
    missing key. */
module Wrappers {

  datatype Option<+T> = None | Some(value: T) {

    /** The value when present, `default` otherwise (the `??` and `||` fallbacks). */
    function GetOr(default: T): T {
      match this
      case Some(v) => v
      case None => default
    }
  }

  /** A value or the name of the exception the source would throw. */
  datatype Result<+T> = Success(value: T) | Failure(error: string)
}
