/** Optional values, the model of Python's `None`-or-value results. */
module Wrappers {

  datatype Option<T> = None | Some(value: T) {
    predicate IsSome() {
      Some?
    }

    function GetOr(default: T): T {
      if Some? then value else default
    }
  }
}
