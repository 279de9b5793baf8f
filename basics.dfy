/** Small shared vocabulary: bytes as 8-bit bit-vectors, the single-set-bit test, and Option. */
module Basics {

  /** A Rust `u8`, written as a bit-vector so that `|` and `&` are available. */
  type Byte = bv8

  /** A Rust `u8` that is only compared, counted or used as an index. */
  type U8 = x: int | 0 <= x < 256

  /** True when exactly one bit of `b` is set (a non-zero power of two). */
  predicate IsSingleBit(b: Byte) {
    b != 0 && b & (b - 1) == 0
  }

  datatype Option<T> = None | Some(value: T)
}
