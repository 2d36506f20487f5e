/** The fixed-width Rust integers the library uses, as ranges of `int`,
    and the casts between them that it relies on. */
module Ints {

  const TWO_63: int := 0x8000_0000_0000_0000
  const TWO_64: int := 0x1_0000_0000_0000_0000

  type u64 = x: int | 0 <= x < 0x1_0000_0000_0000_0000
  type i64 = x: int | -0x8000_0000_0000_0000 <= x < 0x8000_0000_0000_0000

  /** Rust's `x as u64` on an `i64`, which is also what `transmute::<i64, u64>`
      does: the same 64 bits read as an unsigned number. */
  function AsU64(x: i64): (r: u64)
    ensures r % TWO_64 == x % TWO_64
    ensures x >= 0 ==> r == x
    ensures x < 0 ==> r >= TWO_63
    ensures r == 0 <==> x == 0
  {
    if x < 0 then x as int + TWO_64 else x
  }

  /** Rust's `i64::unsigned_abs`: the magnitude, which always fits in a `u64`
      (also for `i64::MIN`). */
  function UnsignedAbs(x: i64): (r: u64)
    ensures r == x || r == -(x as int)
    ensures r >= 0
  {
    if x < 0 then -(x as int) else x
  }
}
