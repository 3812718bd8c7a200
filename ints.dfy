/** Fixed-width integer types of the Rust source, as bounded subsets of `int`. */
module Ints {
  type u8 = x: int | 0 <= x <= 0xFF
  type u16 = x: int | 0 <= x <= 0xFFFF
  type i8 = x: int | -0x80 <= x <= 0x7F

  const U8_MAX: u8 := 0xFF
  const U16_MAX: u16 := 0xFFFF
  const U32_MAX: nat := 0xFFFF_FFFF

  /** Rust's `x as u16` on a non-negative value: keeps the low 16 bits,
      so it is the identity exactly on values that already fit. */
  function AsU16(x: nat): (r: u16)
    ensures r == x % 0x1_0000
    ensures r <= x
    ensures x <= U16_MAX <==> r == x
  {
    if x <= U16_MAX then x else x % 0x1_0000
  }
}
