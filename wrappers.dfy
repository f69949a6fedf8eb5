/** Option: an optional value; `None` stands for a JavaScript `null`/`undefined`
    or a Python `None`, depending on the side of the application. */
module Wrappers {

  datatype Option<+T> = None | Some(value: T) {

    /** The value, or `default` when there is none. */
    function GetOr(default: T): T {
      match this
      case Some(v) => v
      case None => default
    }
  }
}
