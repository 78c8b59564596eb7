/** An optional value: a key that a configuration or mapping may leave out. */
module Options {
  datatype Option<T> = None | Some(value: T) {
    /** The value, or `default` when there is none (a dictionary `get` with a default). */
    function GetOr(default: T): T {
      match this
      case None => default
      case Some(v) => v
    }
  }
}
