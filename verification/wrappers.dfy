/** Option, used for values the source represents as `undefined`, `null`
    or `NaN`, and for operations that can fail. */
module Wrappers {

  datatype Option<+T> = None | Some(value: T) {

    /** Returns the value held in Some or a default value if None */
    function GetOr(default: T): T {
      match this
      case Some(v) => v
      case None => default
    }
  }
}
