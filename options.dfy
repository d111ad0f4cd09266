/** Rust's `Option<T>`, as returned by the unit lookup and the parameter accessors. */
module Options {
  datatype Option<+T> = None | Some(value: T) {
    /** `Option::unwrap_or`. */
    function UnwrapOr(default: T): T {
      match this
      case Some(v) => v
      case None => default
    }

    /** `Option::or`: keeps `this` when it is set, otherwise takes `other`. */
    function Or(other: Option<T>): Option<T> {
      if Some? then this else other
    }
  }
}
