/** Optional values: PHP's nullable types (`?string`, `?User`) become Option. */
module Wrappers {

  datatype Option<+T> = None | Some(value: T) {

    /** The PHP null-coalescing `$x ?? default`. */
    function GetOr(default: T): T {
      match this
      case Some(v) => v
      case None => default
    }
  }
}
