/** An optional value, usable with `:-`; stands for `T | undefined` and `T | null`. */
module Wrappers {

  datatype Option<+T> = None | Some(value: T) {

    predicate IsFailure() {
      None?
    }

    function PropagateFailure<U>(): Option<U>
      requires None?
    {
      None
    }

    function Extract(): T
      requires Some?
    {
      value
    }

    /** `x ?? d`: the held value, or `d` when there is none. */
    function GetOr(d: T): T {
      match this
      case Some(v) => v
      case None => d
    }
  }
}
