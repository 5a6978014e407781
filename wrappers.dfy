/** The Option type for values a driver may not have reported (Python's `None`). */
module Wrappers {

  datatype Option<+T> = None | Some(value: T) {

    /** The value held in Some, or `default` if None. */
    function GetOr(default: T): T
    {
      match this
      case Some(v) => v
      case None => default
    }
  }
}
