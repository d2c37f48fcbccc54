/** The Some/None datatype. A form field that `Number.parseFloat` cannot read
    (so that it yields NaN) is `None`; a nullable database column is an `Option` too. */
module Wrappers {

  datatype Option<+T> = None | Some(value: T) {

    /** The value, or `default` when there is none: JavaScript's `x || default`
        for a parsed number, where NaN is the only falsy parse that matters. */
    function GetOr(default: T): T {
      match this
      case Some(v) => v
      case None => default
    }
  }
}
