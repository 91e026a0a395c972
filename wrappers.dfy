/** Swift's `Optional`, as the usual Some/None datatype. */
module Wrappers {

  datatype Option<+T> = None | Some(value: T) {

    /** Swift's `??` operator: the wrapped value, or `default` for nil. */
    function GetOr(default: T): (v: T) {
      match this
      case Some(x) => x
      case None => default
    }
  }
}
