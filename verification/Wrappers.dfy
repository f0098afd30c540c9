module Wrappers {

  datatype Option<+T> = None | Some(value: T)

  /** An operation that either answers or raises. */
  datatype Outcome<+T> = Ok(value: T) | Raise(code: string) {
    predicate IsFailure() { Raise? }
    function PropagateFailure<U>(): Outcome<U>
      requires Raise?
    {
      Raise(code)
    }
    function Extract(): T
      requires Ok?
    {
      value
    }
  }
}
