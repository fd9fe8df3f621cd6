/** Failure-compatible results for the error conditions the ML primitives raise.
    Each Python exception of the library becomes one `Error` value. */
module Wrappers {

  /** The error conditions of the operator library and the ML value types. */
  datatype Error =
    | LengthMismatch      // vectors or lists of different lengths (ValueError)
    | DimensionMismatch   // neuron inputs of the wrong dimension (ValueError)
    | IndexOutOfRange     // list index outside the valid range (IndexError)
    | RatioOutOfRange     // split ratio outside the open interval (0, 1) (ValueError)
    | ZeroDivision        // division of a float by zero (ZeroDivisionError)
    | MathDomain          // argument outside a math function's domain (ValueError)

  /** Either a value or the error that the Python code would raise instead. */
  datatype Result<+T> = Ok(value: T) | Err(error: Error) {

    predicate IsFailure() {
      Err?
    }

    function PropagateFailure<U>(): Result<U>
      requires Err?
    {
      Err(error)
    }

    function Extract(): T
      requires Ok?
    {
      value
    }
  }
}
