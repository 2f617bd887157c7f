/** The option type shared by the other modules: an absent value, a NULL column or an
    omitted JSON field of the original. */
module Wrappers {

  datatype Option<+T> = None | Some(value: T) {
    function GetOr(default: T): T {
      match this
      case Some(v) => v
      case None => default
    }
  }
}
