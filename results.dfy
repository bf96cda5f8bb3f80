/** Failure values shared by the whole model. Every validating operation of the
    program returns either a value or one of these typed causes instead of an
    error string. */
module Results {

  /** The kinds of failure the program reports; the seven per-system series
      count errors share one constructor. */
  datatype Error =
    | WrongParamCount     // extra series do not match the crystal system
    | DimensionMismatch   // some unit-cell series is not as long as T
    | LengthMismatch      // x and y of a sample series differ in length
    | DegreeOutOfRange    // fit degree outside [1, 9]
    | TooFewPoints        // fewer than degree + 1 samples
    | SolveFailed         // the QR least-squares solve reported an error
    | WrongDegreeCount    // degree configuration is not six entries
    | DegreeBelowOne      // some configured degree is below 1

  datatype Option<T> = None | Some(value: T)

  /** A value or the cause of a failure; usable with `:-`. */
  datatype Result<T> = Ok(value: T) | Err(error: Error) {
    predicate IsFailure() {
      Err?
    }

    function PropagateFailure<U>(): Result<U>
      requires Err?
    {
      Err(error)
    }

    function Extract(): T
      requires Ok?
    {
      value
    }
  }

  /** Success or a failure cause, for checks that produce no value. */
  datatype Outcome = Pass | Fail(error: Error)
}
