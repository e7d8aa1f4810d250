/** Go's `error` values and the `(value, error)` return convention, as the
    self-signed issuer sees them. */
module Errors {

  datatype Option<+T> = None | Some(value: T) {
    /** The value, or `default` when there is none */
    function GetOr(default: T): T {
      match this
      case Some(v) => v
      case None => default
    }
  }

  /** A non-nil Go `error`. The flags record what the classifiers
      `k8sErrors.IsNotFound` and `cmerrors.IsInvalidData` answer for this
      value; how they decide is not part of this model. */
  datatype Error = Error(message: string, isNotFound: bool, isInvalidData: bool)

  /** A Go `(value, error)` pair in which exactly one side is meaningful. */
  datatype Result<+T> = Ok(value: T) | Err(error: Error)

  /** An error made by `errors.New`: neither classifier recognises it. */
  function New(message: string): Error {
    Error(message, false, false)
  }
}
