/** Small value types shared by every component model. */
module Common {
  datatype Option<+T> = None | Some(value: T)

  type byte = bv8
  type Bytes = seq<byte>

  /** Outcome of an operation that may raise. */
  datatype Result<+T, +E> = Ok(value: T) | Err(error: E)
}
