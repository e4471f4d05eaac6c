/** The optional value used for JavaScript's `null`/`undefined`: a reply field
    or a whole reply body that may be missing. */
module Wrappers {

  datatype Option<+T> = None | Some(value: T) {

    /** Returns the value held in Some, or `default` when None; this is the
        `x || default` idiom of the pages for values that are never falsy
        when present. */
    function GetOr(default: T): T
    {
      match this
      case Some(v) => v
      case None => default
    }
  }
}
