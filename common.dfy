/** Small value types shared by the model of ko's `pkg/commands/resolver.go`. */
module Common {

  /** An optional value; `None` stands for Go's nil. */
  datatype Option<+T> = None | Some(value: T)

  /** The `(value, error)` pair a Go function returns, as a sum. */
  datatype Result<+T, +E> = Success(value: T) | Failure(error: E)

  /** One byte of a file or of the output stream. */
  newtype byte = x: int | 0 <= x < 256

  type Bytes = seq<byte>
}
