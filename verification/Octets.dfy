/** Bytes as the codecs read them. */
module Octets {
  type byte = x: int | 0 <= x < 256

  datatype Option<+T> = None | Some(value: T)
}
