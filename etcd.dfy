/** What the library asks of the etcd key-value store, as values. */
module Etcd {

  /** etcd's modification index: a 64-bit unsigned integer. */
  newtype uint64 = x: int | 0 <= x < 0x1_0000_0000_0000_0000

  /** A `Set` of a value under a key. */
  datatype SetRequest = SetRequest(key: string, value: string)

  /** An error a call returns. */
  datatype Error =
    | DecodeError              // the JSON text could not be decoded
    | KeyNotFound              // etcd's "key not found"
    | StoreError(code: nat)    // any other etcd or transport error

  /** The outcome of an etcd `Get`. */
  datatype GetOutcome = Found(value: string) | Failed(error: Error)
}
