/** The optional value used for every nullable pointer of the reporting core. */
module Wrappers {

  /** `None` stands for a nil `*decimal.Decimal`; it is never the same as `Some(0.0)`. */
  datatype Option<+T> = None | Some(value: T) {

    /** The wrapped value, or `default` for `None`. */
    function GetOr(default: T): T {
      match this
      case Some(v) => v
      case None => default
    }
  }
}
