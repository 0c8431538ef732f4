/** Option and Result values shared by the screens' models. */
module Wrappers {

  /** A value that may be absent (JavaScript `null` or `undefined` where the screens test for it). */
  datatype Option<T> = None | Some(value: T)

  /** The outcome of a step that can throw: `Failure` carries the `message` of the thrown `Error`. */
  datatype Result<T> = Success(value: T) | Failure(error: string)
}
