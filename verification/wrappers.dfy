/** Failure-compatible wrappers used throughout the model: `Option` for the
    source's `undefined`/`null`, `Result` for a value or a thrown error. */
module Wrappers {

  datatype Option<+T> = None | Some(value: T) {
    predicate IsFailure() { None? }

    function PropagateFailure<U>(): Option<U>
      requires None?
    {
      None
    }

    function Extract(): T
      requires Some?
    {
      value
    }

    function GetOr(default: T): T {
      if Some? then value else default
    }
  }

  /** A computation that either yields a value or throws an `Error` with a message. */
  datatype Result<+T> = Ok(value: T) | Err(msg: string) {
    predicate IsFailure() { Err? }

    function PropagateFailure<U>(): Result<U>
      requires Err?
    {
      Err(msg)
    }

    function Extract(): T
      requires Ok?
    {
      value
    }
  }

  /** Two outcomes agree when they fail together and succeed with the same
      value; the text of an error message is not part of the model. */
  predicate Agrees<T(==)>(r: Result<T>, s: Result<T>) {
    r.Ok? == s.Ok? && (r.Ok? ==> r.value == s.value)
  }
}
