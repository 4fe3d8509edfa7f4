/** Option and Result, the two failure-carrying shapes the calculators use. */
module Wrappers {

  datatype Option<+T> = None | Some(value: T)

  /** A calculator either yields a value or an error, never both. */
  datatype Result<+R, +E> = Ok(value: R) | Err(error: E) {

    predicate IsFailure() {
      Err?
    }

    function PropagateFailure<U>(): Result<U, E>
      requires Err?
    {
      Err(error)
    }

    function Extract(): R
      requires Ok?
    {
      value
    }
  }
}
