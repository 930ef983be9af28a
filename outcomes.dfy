/** Go's `(value, error)` return convention and the errors this layer can see. */
module Outcomes {

  /** The errors that travel through the breaker and the router. */
  datatype Error =
    | ErrUnavailable                // the breaker's own "resource unavailable" error
    | ErrOpenState                  // gobreaker refusing a call while its own machine is open
    | ErrTooManyRequests            // gobreaker refusing a call while half-open
    | ErrBackend(message: string)   // anything a backend returns

  /** A call's result: a value with a nil error, or a non-nil error. */
  datatype Outcome<+T> = Ok(value: T) | Err(error: Error)

  /** Go's pointer-or-nil for an optional argument. */
  datatype Option<+T> = None | Some(value: T)
}
