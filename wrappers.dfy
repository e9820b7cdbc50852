/** Failure-compatible result types and the Python exceptions the modelled code raises. */
module Wrappers {

  /** The Python exception classes that the modelled operations can raise. */
  datatype PyError =
    | KeyError
    | ValueError
    | TypeError
    | IndexError
    | AttributeError
    | ZeroDivisionError

  datatype Option<+T> = None | Some(value: T) {
    predicate IsFailure() { None? }
    function PropagateFailure<U>(): Option<U> requires None? { None }
    function Extract(): T requires Some? { value }
  }

  /** A value, or the exception the Python code would raise instead. */
  datatype Result<+T> = Ok(value: T) | Err(error: PyError) {
    predicate IsFailure() { Err? }
    function PropagateFailure<U>(): Result<U> requires Err? { Err(error) }
    function Extract(): T requires Ok? { value }
  }

  /** The outcome of a statement that returns nothing on success. */
  datatype Outcome = Pass | Fail(error: PyError) {
    predicate IsFailure() { Fail? }
    function PropagateFailure(): Outcome requires Fail? { this }
  }
}
