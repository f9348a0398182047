/** Option and Result values used where the source returns "nothing found" or raises an exception. */
module Results {

  datatype Option<T> = None | Some(value: T)

  /** The outcome of an operation that can raise: `Ok` holds the value, `Err` the exception raised. */
  datatype Result<T, E> = Ok(value: T) | Err(error: E)

  /** A quotient `num / den` that the source prints as a float (the floating-point value is not modelled). */
  datatype Ratio = Ratio(num: int, den: int)

  /** The Python exceptions the modelled code can raise on malformed input. */
  datatype PyError =
    | ValueError(line: nat)   // unpacking a split line into the wrong number of names, or int() of a non-number
    | IndexError(at: nat)     // indexing a list past its end, while processing record `at`
    | KeyError(at: nat)       // looking up a missing dictionary key, while processing record `at`
    | ZeroDivisionError       // dividing by a zero total
    | UnboundLocalError       // reading a local variable that no branch assigned
}
