/** Optional values, and the three ways a key of the shared state can read. */
module Wrappers {

  datatype Option<+T> = None | Some(value: T) {
    /** The value, or `default` when there is none (Python's `x or default` on an optional). */
    function GetOr(default: T): T {
      match this
      case Some(v) => v
      case None => default
    }
  }

  /**
   * A key of the state dictionary: missing altogether, present and bound to
   * `None`, or bound to a value. `dict.setdefault` tells the first two apart;
   * `dict.get(k) or default` does not.
   */
  datatype Field<+T> = Missing | Null | Present(value: T) {
    function ToOption(): Option<T> {
      match this
      case Present(v) => Some(v)
      case _ => None
    }
  }
}
