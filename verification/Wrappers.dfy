/** Optional values and outcomes shared by every component of the model. */
module Wrappers {

  datatype Option<+T> = None | Some(value: T) {

    /** SQL's COALESCE on two arguments. */
    function Or(fallback: Option<T>): Option<T> {
      if Some? then this else fallback
    }

    function GetOr(fallback: T): T {
      if Some? then value else fallback
    }
  }

  datatype Result<+T, +E> = Ok(value: T) | Err(error: E)
}
