/** Optional values, standing in for Python's `None`. */
module Wrappers {

  datatype Option<T> = None | Some(value: T)
  {
    /** Python's `x or default` for an optional value. */
    function GetOr(default: T): T
    {
      if Some? then value else default
    }
  }
}
