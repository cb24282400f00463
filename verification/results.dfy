/** Go's nil-able pointers and `(value, error)` returns, as datatypes. */
module Results {

  /** A value that may be absent (a nil pointer in Go). */
  datatype Option<+T> = None | Some(value: T)

  /** A Go `error`: only its message is observable to this layer. */
  datatype Error = Error(message: string)

  /** The `(value, error)` pair of a Go call: exactly one side is meaningful. */
  datatype Result<+T> = Ok(value: T) | Err(error: Error)
}
