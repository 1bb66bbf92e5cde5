/** Value types shared by every module: Go's `(T, error)` and nil-pointer
    returns become Result and Option, and Go's `byte` is an 8-bit number. */
module Base {

  datatype Option<+T> = None | Some(value: T)

  /** A Go call that returns `(value, error)`: exactly one of the two is meaningful. */
  datatype Result<+T, +E> = Success(value: T) | Failure(error: E)

  newtype Byte = x: int | 0 <= x < 256
}
