/** Small failure-carrying datatypes shared by every module. */
module Wrappers {

  /** Python's `None` or a value. */
  datatype Option<+T> = None | Some(value: T) {
    function GetOr(default: T): T {
      match this
      case Some(v) => v
      case None => default
    }
  }

  /** What a Python call does: it returns a value, or an exception escapes from it. */
  datatype Outcome<+T> = Returned(value: T) | Raised
}
