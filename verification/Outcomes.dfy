/** Values that may be missing, and operations that may panic. */
module Outcomes {

  datatype Option<+T> = None | Some(value: T)

  datatype Result<+T> = Ok(value: T) | Panic {
    predicate IsFailure() { Panic? }
    function PropagateFailure<U>(): Result<U>
      requires Panic?
    {
      Panic
    }
    function Extract(): T
      requires Ok?
    {
      value
    }
  }
}
