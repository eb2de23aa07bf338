/** Failure-compatible wrappers and the byte type shared by the other modules. */
module Common {

  datatype Option<+T> = None | Some(value: T)

  datatype Result<+R, +E> = Success(value: R) | Failure(error: E)

  /** The outcome of a Python call that returns None or raises. */
  datatype Outcome<+E> = Pass | Fail(error: E)

  /** One octet, as found in a Python `bytes` value. */
  type Byte = b: int | 0 <= b < 256
}
