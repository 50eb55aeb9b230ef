/** A value that may be absent: JavaScript's `null` / `undefined`. */
module Optional {

  datatype Option<T> = None | Some(value: T) {

    /** The value, or `default` when absent (the `x || default` idiom on a nullable field). */
    function GetOr(default: T): T {
      match this
      case Some(v) => v
      case None => default
    }
  }
}
