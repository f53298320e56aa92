/** Shared value types: optional values, results, bytes and 64-bit unsigned integers. */
module Common {

  datatype Option<+T> = None | Some(value: T)

  /** An operation that either yields a value or fails with a typed error. */
  datatype Result<+T, +E> = Ok(value: T) | Err(error: E)

  type byte = x: int | 0 <= x < 0x100

  type Bytes = seq<byte>

  /** The `uint64` of the source (the commitment's random value). */
  type uint64 = x: int | 0 <= x < 0x1_0000_0000_0000_0000
}
