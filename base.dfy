/** Value types shared by the loader's modules. */
module Base {
  datatype Option<T> = None | Some(value: T)

  /** A value or the error value a Go function returns beside it. */
  datatype Result<T, E> = Success(value: T) | Failure(error: E)

  /** Go's uint32. */
  newtype uint32 = x: int | 0 <= x < 0x1_0000_0000

  /** Go's byte. */
  newtype byte = x: int | 0 <= x < 0x100
}
