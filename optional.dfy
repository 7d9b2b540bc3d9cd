/** The optional value the recognizer's Python code expresses with `None`. */
module Optional {

  datatype Option<+T> = None | Some(value: T) {

    /** `value` when present, `default` otherwise, as `dict.get(key, default)` does. */
    function GetOr(default: T): T {
      match this
      case Some(v) => v
      case None => default
    }
  }
}
