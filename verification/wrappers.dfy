/** The optional-value datatype used for every field the chat service may omit. */
module Wrappers {

  /** `None` stands for a missing key or a Python `None`. */
  datatype Option<+T> = None | Some(value: T) {

    /** The wrapped value, or `default` when there is none (Python's `d.get(k, default)`). */
    function GetOr(default: T): T {
      match this
      case Some(v) => v
      case None => default
    }
  }
}
