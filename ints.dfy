/** The fixed-width integer types of the source, as ranges of `int`. */
module Ints {
  const I64_MIN: int := -0x8000_0000_0000_0000
  const I64_MAX: int := 0x7FFF_FFFF_FFFF_FFFF
  const U64_MAX: int := 0xFFFF_FFFF_FFFF_FFFF
  const U16_LIMIT: int := 0x1_0000

  type Byte = b: int | 0 <= b < 256
  type U16 = x: int | 0 <= x < U16_LIMIT
  type I64 = x: int | I64_MIN <= x <= I64_MAX
  type U64 = x: int | 0 <= x <= U64_MAX

  function Abs(x: int): nat {
    if x < 0 then -x else x
  }
}
