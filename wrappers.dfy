/** The optional value used for PHP's nullable parameters and missing fields. */
module Wrappers {

  datatype Option<+T> = None | Some(value: T) {

    /** `$x ?? $default` for a nullable value. */
    function GetOr(default: T): T {
      match this
      case Some(v) => v
      case None => default
    }
  }
}
