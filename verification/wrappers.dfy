/** Optional values: TypeScript's `field?: T` and `T | null`. */
module Wrappers {

  datatype Option<+T> = None | Some(value: T) {

    /** The value, or `default` when absent (TypeScript's `x || default` on a present/absent field). */
    function GetOr(default: T): T {
      match this
      case Some(v) => v
      case None => default
    }
  }
}
