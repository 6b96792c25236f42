/** Rust's fixed-width unsigned integers. Release builds wrap on overflow, so
    the arithmetic the model needs is written out modulo 2^N. */
module MachineInt {

  const U16_LIMIT: nat := 0x1_0000
  const U32_LIMIT: nat := 0x1_0000_0000
  const U64_LIMIT: nat := 0x1_0000_0000_0000_0000
  const U128_LIMIT: nat := 0x1_0000_0000_0000_0000_0000_0000_0000_0000

  type u16 = x: nat | x < U16_LIMIT
  type u64 = x: nat | x < U64_LIMIT

  /** `a + b` on u64 (wrapping). */
  function AddU64(a: nat, b: nat): (r: u64)
    ensures a + b < U64_LIMIT ==> r == a + b
  {
    (a + b) % U64_LIMIT
  }

  /** `a - b` on u64 (wrapping). */
  function SubU64(a: u64, b: u64): (r: u64)
    ensures b <= a ==> r == a - b
    ensures a < b ==> r == U64_LIMIT + a - b
    ensures AddU64(r, b) == a
  {
    (a - b) % U64_LIMIT
  }

  /** `a * b` on u16 (wrapping). */
  function MulU16(a: nat, b: nat): (r: u16)
    ensures a * b < U16_LIMIT ==> r == a * b
  {
    (a * b) % U16_LIMIT
  }

  /** `x as u16` (truncation to the low 16 bits). */
  function AsU16(x: nat): (r: u16)
    ensures x < U16_LIMIT ==> r == x
  {
    x % U16_LIMIT
  }
}
