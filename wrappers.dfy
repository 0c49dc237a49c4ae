/** Option and error-result datatypes used by every policy model. */
module Wrappers {

  /** A value that may be absent: a Go map lookup that found nothing, or a nil map. */
  datatype Option<+T> = None | Some(value: T) {

    /** The carried value, or `default` when there is none. */
    function GetOr(default: T): T {
      match this
      case Some(v) => v
      case None => default
    }
  }

  /** The result of a Go function returning `error`: `Pass` is a nil error, `Fail` carries the message. */
  datatype Outcome<+E> = Pass | Fail(error: E)
}
