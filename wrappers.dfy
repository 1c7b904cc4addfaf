/** Failure-carrying values shared by the policy model and the runner. */
module Wrappers {

  /** A value that may be missing: Go's nil pointer, nil error or unset field. */
  datatype Option<+T> = None | Some(value: T)

  /** A value or the text of the Go error returned in its place. */
  datatype Result<+T> = Ok(value: T) | Err(error: string)
}
