/** Small failure-compatible wrapper used by every parser and decision in the model. */
module Wrappers {

  /** A value that may be absent: a nil Go reference or slice, or a parse that failed. */
  datatype Option<+T> = None | Some(value: T) {

    predicate IsFailure() {
      None?
    }

    function PropagateFailure<U>(): Option<U>
      requires None?
    {
      None
    }

    function Extract(): T
      requires Some?
    {
      value
    }
  }
}
