/** The JavaScript `T | null` (or `T | undefined`) of the source, as a value. */
module Wrappers {

  datatype Option<+T> = None | Some(value: T) {

    /** The value held, or `default` when there is none (the spread `{...a, ...b}` keeps `a`'s field when `b` lacks it). */
    function GetOr(default: T): T {
      match this
      case Some(v) => v
      case None => default
    }
  }
}
