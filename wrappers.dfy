/** Failure-carrying result type used for the request-body decoding step. */
module Wrappers {

  /** Either a decoded value or the error text the decoder reported. */
  datatype Result<+T, +E> = Success(value: T) | Failure(error: E)
}
