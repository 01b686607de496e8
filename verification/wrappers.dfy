/** The Option type used for form entries, banks and the account snapshot. */
module Wrappers {

  /** An optional value; `None` stands for an empty form entry or a value not loaded yet. */
  datatype Option<+T> = None | Some(value: T) {

    /** The value, or `default` when there is none. */
    function GetOr(default: T): T {
      match this
      case Some(v) => v
      case None => default
    }
  }
}
