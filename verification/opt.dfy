/** A JavaScript value that may be `null`/`undefined` (None) or present (Some). */
module Opt {

  datatype Option<+T> = None | Some(value: T) {

    /** The value when present, otherwise the given default. */
    function GetOr(default: T): T
    {
      match this
      case Some(v) => v
      case None => default
    }
  }
}
