/** Option for JavaScript's `undefined`, Outcome for a call that may throw. */
module Wrappers {

  /** A value that may be absent (`undefined` in the source). */
  datatype Option<+T> = None | Some(value: T) {

    /** `x ?? default`: the value when present, otherwise the default. */
    function GetOr(default: T): (r: T)
      ensures Some? ==> r == value
      ensures None? ==> r == default
    {
      match this
      case Some(v) => v
      case None => default
    }
  }

  /** The settled result of an awaited call: it resolved with a value or threw an error. */
  datatype Outcome<+T> = Ok(value: T) | Fail(error: string)
}
