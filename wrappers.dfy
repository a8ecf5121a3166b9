/** Optional values: an argument or option that may be left out. */
module Wrappers {

  datatype Option<T> = None | Some(value: T) {

    /** The value, or `default` when there is none (JavaScript's default-argument rule). */
    function GetOr(default: T): T {
      match this
      case Some(v) => v
      case None => default
    }
  }
}
