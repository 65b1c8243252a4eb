/** The optional value used wherever the source returns None or may be missing a key. */
module Options {

  datatype Option<+T> = None | Some(value: T) {

    /** The value, or a default when absent (Python's `d.get(k, default)`). */
    function GetOr(default: T): T {
      match this
      case Some(v) => v
      case None => default
    }
  }
}
