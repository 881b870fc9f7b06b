/** Option and Result, the failure-carrying wrappers used across the model. */
module Wrappers {

  datatype Option<+T> = None | Some(value: T) {
    function GetOr(default: T): T {
      match this
      case Some(v) => v
      case None => default
    }
  }

  /** The Python exceptions the modelled code can raise on its own. */
  datatype Fault =
    | IndexError          // list index out of range
    | ZeroDivisionError   // division by zero

  datatype Result<+R> = Ok(value: R) | Err(error: Fault)
}
