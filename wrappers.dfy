/** Failure-compatible result types shared by the model. `null`/`undefined`
    in the source become `None`; `{ success, error }` results become `Result`
    or `Outcome`. */
module Wrappers {

  datatype Option<+T> = None | Some(value: T)

  /** `{ success: true, <payload> }` or `{ success: false, error }`. */
  datatype Result<+R, +E> = Success(value: R) | Failure(error: E)

  /** `{ success: true }` (no payload) or `{ success: false, error }`. */
  datatype Outcome<+E> = Pass | Fail(error: E)
}
