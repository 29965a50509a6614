/** Small shared datatypes. */
module Common {

  /** A value that may be absent (a JavaScript `undefined`, or NaN for numbers). */
  datatype Option<+T> = None | Some(value: T) {

    /** The value, or `default` when absent. */
    function GetOr(default: T): T {
      match this
      case Some(v) => v
      case None => default
    }
  }
}
