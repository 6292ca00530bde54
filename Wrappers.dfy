/** The optional value used for PHP's "key may be missing" and "no match" outcomes. */
module Wrappers {

  datatype Option<+T> = None | Some(value: T) {

    /** The value if present, else the default (PHP's `??`). */
    function GetOr(default: T): T {
      match this
      case Some(v) => v
      case None => default
    }
  }
}
