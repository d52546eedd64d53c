/** Kotlin's nullable values: `null` is None. */
module Wrappers {

  datatype Option<+T> = None | Some(value: T) {

    /** The `?:` (elvis) operator: the value, or `default` for null. */
    function GetOr(default: T): (r: T)
      ensures Some? ==> r == value
      ensures None? ==> r == default
    {
      match this
      case Some(v) => v
      case None => default
    }
  }
}
