/** Small helper datatypes shared by the modules of the model. */
module Wrappers {

  /** A value that may be absent: a nullable column, a `null` hook state, a missing row. */
  datatype Option<+T> = None | Some(value: T) {

    /** The value, or `default` when absent (the `x ?? default` idiom). */
    function GetOr(default: T): T {
      match this
      case Some(v) => v
      case None => default
    }
  }
}
