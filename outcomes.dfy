/** The exceptions the pipeline can raise, and a failure-compatible result
    type that carries either a stage's value or the fault that stopped it. */
module Outcomes {

  datatype Fault =
      /** Column 1 of a buffer with fewer than two channels was indexed. */
    | TooFewChannels
      /** A buffer was resampled to no samples, or the peak of an empty
          buffer was taken. */
    | EmptySignal
      /** A Butterworth design was asked for critical frequencies outside
          (0, 1), or for band edges that do not increase. */
    | InvalidCriticalFrequency
      /** A discrete Fourier transform of zero points was asked for. */
    | EmptyTransform

  datatype Result<+T> = Ok(value: T) | Err(fault: Fault) {

    predicate IsFailure() {
      Err?
    }

    function PropagateFailure<U>(): Result<U>
      requires Err?
    {
      Err(fault)
    }

    function Extract(): T
      requires Ok?
    {
      value
    }
  }
}
