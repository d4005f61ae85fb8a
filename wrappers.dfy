/**
 * Option and Result values, and the errors the Python package raises.
 *
 * Python signals failure by raising; here every operation that can raise
 * returns a Result whose Err side names the exception class (and, where the
 * source builds its message from data, that data).
 */
module Wrappers {

  datatype Option<+T> = None | Some(value: T)

  /** The exceptions raised by the modelled code. */
  datatype Error =
    | ValueError
      /** ValueError naming two overlapping variable lists and the variables they share. */
    | Overlap(first: string, second: string, shared: set<string>)
      /** ValueError naming the user-provided variables a dataframe lacks. */
    | MissingVariables(names: set<string>)
    | AssertionError
    | TypeError
    | KeyError
    | AttributeError
    | NotImplementedError
  {
    /** True for every error Python raises as a ValueError. */
    predicate IsValueError() {
      ValueError? || Overlap? || MissingVariables?
    }
  }

  datatype Result<+T> = Ok(value: T) | Err(error: Error) {
    predicate IsFailure() {
      Err?
    }

    function PropagateFailure<U>(): Result<U>
      requires Err?
    {
      Err(error)
    }

    function Extract(): T
      requires Ok?
    {
      value
    }
  }
}
