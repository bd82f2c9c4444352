/** The optional value used for the source's `null`. */
module Wrappers {

  datatype Option<+T> = None | Some(value: T) {

    /** `a || b` on two possibly-null references: the first one that is present. */
    function OrElse(other: Option<T>): (r: Option<T>)
      ensures Some? ==> r == this
      ensures None? ==> r == other
    {
      if Some? then this else other
    }
  }
}
