/** Optional values and fallible outcomes, shared by the server and client models. */
module Wrappers {

  /** A value that may be absent: a missing row, a NaN parse, an unset session field. */
  datatype Option<+T> = None | Some(value: T)

  /** The outcome of a fallible call: a store write, a network request, the model provider. */
  datatype Result<+R, +E> = Success(value: R) | Failure(error: E)
}
