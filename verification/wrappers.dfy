/** The optional-value datatype used throughout the model: `None` stands for
    JavaScript's `null`, `undefined` or `NaN`, depending on the caller. */
module Wrappers {

  datatype Option<+T> = None | Some(value: T) {

    /** Returns the value held in `Some`, or `default` for `None`. */
    function GetOr(default: T): T {
      match this
      case Some(v) => v
      case None => default
    }
  }
}
