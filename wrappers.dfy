/** Optional values: `None` stands for JavaScript's `undefined`/`null` where the source reads a
    value that may be missing. */
module Wrappers {

  datatype Option<+T> = None | Some(value: T) {

    /** `x ?? d`: the value, or the default when missing. */
    function GetOr(default: T): T {
      match this
      case Some(v) => v
      case None => default
    }
  }
}
