/** Value types the two components share. */
module Primitives {

  /** A 128-bit UUID; only its identity matters here, its text form is supplied by the caller. */
  newtype Uuid = x: int | 0 <= x < 0x1_0000_0000_0000_0000_0000_0000_0000_0000

  /** An octet of a serialised payload. */
  newtype Byte = x: int | 0 <= x < 0x100
}
