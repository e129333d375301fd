/** Option and Result, used wherever the storefront returns "nothing found" or
    throws / answers with an error status. */
module Wrappers {

  datatype Option<+T> = None | Some(value: T) {
    function GetOr(default: T): (r: T) {
      match this
      case Some(v) => v
      case None => default
    }
  }

  datatype Result<+R, +E> = Ok(value: R) | Err(error: E)
}
