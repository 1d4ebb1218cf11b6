/** Option and Result values standing for Python's `None` and raised exceptions. */
module Wrappers {

  datatype Option<+T> = None | Some(value: T)

  datatype Result<+T, +E> = Success(value: T) | Failure(error: E)
}

/** Octets, as Python's `bytes` holds them. */
module Bytes {

  type Byte = b: int | 0 <= b < 256
}
