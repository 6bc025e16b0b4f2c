/** Small shared types: optional values (the source's `null`/`undefined`) and bytes. */
module Common {
  datatype Option<+T> = None | Some(value: T)

  /** An 8-bit unsigned value, as stored in a `Uint8Array` or `Buffer`. */
  type Byte = x: int | 0 <= x < 256
}
