// Option and Result, the two wrapper types every module of the model returns.
module Wrappers {
  datatype Option<T> = None | Some(value: T)

  datatype Result<T, E> = Ok(value: T) | Err(error: E)
}

// Fixed-width integers of the source. Rust panics on overflow in debug builds, so an
// operation of the source that would overflow one of these types appears in the model as
// a precondition rather than as wrap-around.
module Ints {
  const U8_LIMIT: int := 0x100
  const U32_LIMIT: int := 0x1_0000_0000
  const U64_LIMIT: int := 0x1_0000_0000_0000_0000

  const U32_MAX: int := U32_LIMIT - 1
  const U64_MAX: int := U64_LIMIT - 1

  type u8 = x: int | 0 <= x < 0x100
  type u32 = x: int | 0 <= x < 0x1_0000_0000
  type u64 = x: int | 0 <= x < 0x1_0000_0000_0000_0000
  /** usize on the 64-bit targets the renderer is built for. */
  type usize = u64

  /** Rust's `saturating_sub` on unsigned integers: the difference, or 0 when `b > a`. */
  function SaturatingSub(a: nat, b: nat): (r: nat)
    ensures r <= a
    ensures b <= a ==> r + b == a
    ensures r == 0 <==> a <= b
  {
    if a >= b then a - b else 0
  }
}
