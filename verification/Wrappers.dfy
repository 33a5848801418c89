/** Small shared datatypes. */
module Wrappers {

  datatype Option<+T> = None | Some(value: T) {
    /** This value, or `other` when there is none (Python's `a or b` on an optional). */
    function Or(other: Option<T>): Option<T> {
      if Some? then this else other
    }
  }
}
