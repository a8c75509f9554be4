/** The success/failure shapes that stand for the program's `None` results and exceptions. */
module Wrappers {

  datatype Option<+T> = None | Some(value: T) {
    /** Reading an optional key with a default. */
    function GetOr(fallback: T): T {
      if Some? then value else fallback
    }
  }

  datatype Result<+T, +E> = Ok(value: T) | Err(error: E)
}
