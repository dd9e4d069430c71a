/** Failure-carrying values shared by the pipeline stages. */
module Wrappers {

  /** A value that may be absent: a foreign decoder or encoder that either
      produced something or reported an error the stage only logs. */
  datatype Option<+T> = None | Some(value: T)

  /** The outcome of a translation step: the translated value, or the
      error the stage logs before it stops. */
  datatype Result<+R, +E> = Success(value: R) | Failure(error: E)
}
