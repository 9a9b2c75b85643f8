/** An optional value: stands for the `T | null` and `T | undefined` types of the client. */
module Wrappers {

  datatype Option<+T> = None | Some(value: T) {

    /** The value, or `default` when there is none: the `x || ''` idiom on an optional string. */
    function GetOr(default: T): T {
      match this
      case Some(v) => v
      case None => default
    }
  }
}
