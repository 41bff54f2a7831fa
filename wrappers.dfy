/** The optional value: a JavaScript `undefined` or `null` is `None`. */
module Wrappers {

  datatype Option<T> = None | Some(value: T) {

    /** The value when present, `fallback` otherwise (the source's `x !== undefined ? x : fallback`). */
    function GetOr(fallback: T): T
    {
      if Some? then value else fallback
    }
  }
}
