/** Optional values and results shared by the relay, the capture controller
    and the backend model. */
module Outcomes {

  /** A value that may be absent (`undefined`/`null` in TypeScript, `None` in Python). */
  datatype Option<+T> = None | Some(value: T)

  /** The result of a call that may throw or reject instead of returning. */
  datatype Result<+T, +E> = Ok(value: T) | Err(error: E)
}
