/** Failure values for the places where the numeric routines panic or assert.

    The library reports all of these by aborting; the model returns them so that the
    error paths can be stated and proved alongside the results. */
module Errors {

  /** One constructor per class of abort in the library. */
  datatype Error =
    | Overflow            // a fixed-width (u128) intermediate would not fit
    | UnsupportedModulus  // a truth table was requested for a modulus outside the catalogue
    | NonFactorable       // the value is not a square-free product of the prime table
    | Exhausted           // the prime list ran out before the requested width was reached
    | OutOfRange          // the value does not fit in the requested number of digits
    | EmptyInput          // a digit vector that must have a first element is empty
    | DivisionByZero      // a remainder is taken by a zero modulus
    | LengthMismatch      // an operand is longer than the digit vector it is added into

  /** The result of an operation that can abort. */
  datatype Result<+T> = Ok(value: T) | Err(error: Error)

  /** An optional value, used where the failure carries no information. */
  datatype Option<+T> = None | Some(value: T)
}
