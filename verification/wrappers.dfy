/** How the model writes Go's nil-able and error-carrying values.
    - Option<T>: a Go pointer that may be nil.
    - Result<R, E>: a Go `(value, error)` return; `Failure` is a non-nil
      error, `Success` a nil error with its value.
 */
module Wrappers {

  datatype Option<+T> = None | Some(value: T)

  datatype Result<+R, +E> = Success(value: R) | Failure(error: E)
}
