/** Kotlin's nullable values (`T?`) as an Option. */
module Wrappers {

  datatype Option<+T> = None | Some(value: T) {

    /** The `?:` (elvis) operator: the value, or `default` when null. */
    function GetOr(default: T): T {
      match this
      case Some(v) => v
      case None => default
    }
  }
}
