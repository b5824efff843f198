/** Optional values: JavaScript's `undefined` for a prop or slot that may be missing. */
module Wrappers {

  datatype Option<+T> = None | Some(value: T) {

    /** The value, or `default` when there is none (a destructuring default such as `fallback = "loading..."`). */
    function GetOr(default: T): T {
      match this
      case Some(v) => v
      case None => default
    }
  }
}
