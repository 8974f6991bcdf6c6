/** Bytes and machine words, as numbers. */
module Bytes {
  type byte = b: int | 0 <= b < 0x100
  type u32 = n: int | 0 <= n < 0x1_0000_0000
}
