/** Value types shared by every module of the model: Go's byte and the
    two failure-carrying datatypes that stand in for Go's nil and for its
    `(value, error)` return pairs. */
module Common {

  /** Go's `byte`: an unsigned 8-bit value. */
  type byte = b: int | 0 <= b < 256

  /** A value that may be absent: a Go reference or interface that may be nil. */
  datatype Option<+T> = None | Some(value: T)

  /** A Go `(value, error)` pair in which exactly one side is meaningful. */
  datatype Result<+T, +E> = Success(value: T) | Failure(error: E)
}
