/** Option, the stand-in for Go's nil-able pointers and "comma ok" lookups. */
module Wrappers {

  datatype Option<+T> = None | Some(value: T) {

    /** The value, or the given default when there is none (Go's `pointer.XxxValue`). */
    function GetOr(default: T): T {
      match this
      case Some(v) => v
      case None => default
    }
  }
}
