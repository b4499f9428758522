/** Optional values: a JSON field or array slot that is `undefined` or `null`
    (None) versus one that is present (Some). */
module Wrappers {

  datatype Option<+T> = None | Some(value: T) {

    /** `x ?? fallback`: the value when present, the fallback otherwise. */
    function GetOr(fallback: T): T {
      match this
      case Some(v) => v
      case None => fallback
    }

    /** `x ?? y` where `y` may itself be absent. */
    function OrElse(other: Option<T>): Option<T> {
      if Some? then this else other
    }
  }
}
