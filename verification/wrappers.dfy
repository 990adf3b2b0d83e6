/** Option and Result: the model's stand-ins for `undefined`/`null` and for the
    `Alert.alert(...); return;` error paths of the screens. */
module Wrappers {

  datatype Option<+T> = None | Some(value: T) {
    function GetOr(default: T): T {
      match this
      case Some(v) => v
      case None => default
    }
  }

  datatype Result<+T, +E> = Ok(value: T) | Err(error: E)
}
