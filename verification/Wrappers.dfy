/** Option and Result, as used by every module of the model. */
module Wrappers {
  datatype Option<+T> = None | Some(value: T) {
    function GetOr(default: T): T {
      if Some? then value else default
    }
    ghost function ToSet(): set<T> {
      if Some? then {value} else {}
    }
  }

  datatype Result<+T, +E> = Ok(value: T) | Err(error: E)
}
