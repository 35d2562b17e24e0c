/** The fixed-width unsigned integers the state engine stores its cached lengths
    in, and the casts and saturating operations it applies to them. */
module Ints {

  const U8_LIMIT: nat := 0x100
  const U16_LIMIT: nat := 0x1_0000

  type u8 = x: nat | x < U8_LIMIT
  type u16 = x: nat | x < U16_LIMIT

  /** `n as u8`: keeps the low 8 bits. */
  function AsU8(n: nat): (r: u8)
    ensures n < U8_LIMIT ==> r == n
    ensures n >= U8_LIMIT ==> r < n
  {
    n % U8_LIMIT
  }

  /** `n as u16`: keeps the low 16 bits. */
  function AsU16(n: nat): (r: u16)
    ensures n < U16_LIMIT ==> r == n
    ensures n >= U16_LIMIT ==> r < n
  {
    n % U16_LIMIT
  }

  /** `a.saturating_sub(b)` on unsigned integers: never below zero. */
  function SatSub(a: nat, b: nat): (r: nat)
    ensures r <= a
    ensures a >= b ==> r + b == a
    ensures a < b ==> r == 0
  {
    if a >= b then a - b else 0
  }

  function Min(a: nat, b: nat): nat {
    if a <= b then a else b
  }
}
