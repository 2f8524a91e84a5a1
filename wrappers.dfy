// Optional values and fallible results shared by every module of the model.
module Wrappers {

  datatype Option<T> = None | Some(value: T)

  /** The result of a Go call returning (value, error); the error is its message. */
  datatype Result<T> = Ok(value: T) | Err(msg: string)
  {
    predicate IsFailure() { Err? }
  }

  /** A Go call that returns only an error: Pass is a nil error. */
  datatype Outcome = Pass | Fail(msg: string)
}
