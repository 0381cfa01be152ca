/** Optional values: the model's stand-in for Python's `None`. */
module Wrappers {

  datatype Option<+T> = None | Some(value: T) {

    /** Returns the value in Some, or the given default when None. */
    function GetOr(default: T): T {
      match this
      case Some(v) => v
      case None => default
    }
  }
}
