module Wrappers {
  /** A value, or its absence: SQL's NULL and JavaScript's undefined. */
  datatype Option<+T> = None | Some(value: T) {
    function GetOr(default: T): T {
      match this
      case Some(v) => v
      case None => default
    }
  }
}
