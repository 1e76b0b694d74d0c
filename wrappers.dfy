/** Optional values: a lookup that may find nothing (`find` returning `undefined`,
    a query's `.first()` returning `None`, an unset text field). */
module Wrappers {

  datatype Option<+T> = None | Some(value: T) {

    /** The value, or `default` when there is none (JavaScript's `x || default` on objects). */
    function GetOr(default: T): T {
      match this
      case Some(v) => v
      case None => default
    }
  }
}
