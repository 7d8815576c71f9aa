/**
 * Rust's fixed-width unsigned integers and the checked operations of its
 * standard library that the staking utilities call.  Every operation states
 * its overflow behaviour explicitly; none wraps unless it says so.
 */
module Integers {
  import opened Wrappers

  const U8_MAX: int := 0xFF
  const U32_MAX: int := 0xFFFF_FFFF
  const U64_MAX: int := 0xFFFF_FFFF_FFFF_FFFF
  const U128_MAX: int := 0xFFFF_FFFF_FFFF_FFFF_FFFF_FFFF_FFFF_FFFF

  /** 2^64: the modulus of an `as u64` cast. */
  const U64_MODULUS: int := 0x1_0000_0000_0000_0000

  type u8 = x: int | 0 <= x <= U8_MAX
  type u32 = x: int | 0 <= x <= U32_MAX
  type u64 = x: int | 0 <= x <= U64_MAX
  type u128 = x: int | 0 <= x <= U128_MAX

  /** Mathematical exponentiation, with no width. */
  function Pow(base: nat, exp: nat): (r: nat)
    ensures base > 0 ==> r > 0
  {
    if exp == 0 then 1 else base * Pow(base, exp - 1)
  }

  lemma {:induction false} PowMonotone(base: nat, i: nat, j: nat)
    requires base > 0 && i <= j
    ensures Pow(base, i) <= Pow(base, j)
  {
    if i < j {
      PowMonotone(base, i, j - 1);
      assert Pow(base, j) == base * Pow(base, j - 1);
    }
  }

  /** `u64::checked_pow`: `None` exactly when the power does not fit in 64 bits. */
  function CheckedPowU64(base: u64, exp: u32): Option<u64>
  {
    var p := Pow(base, exp);
    if p <= U64_MAX then Some(p) else None
  }

  /** `u128::checked_mul`. */
  function CheckedMulU128(a: u128, b: u128): Option<u128>
  {
    if a * b <= U128_MAX then Some(a * b) else None
  }

  /** `u128::checked_div`: `None` only on a zero divisor; unsigned division floors. */
  function CheckedDivU128(a: u128, b: u128): Option<u128>
  {
    if b == 0 then None else Some(a / b)
  }

  /** `u128::checked_sub`: `None` when the difference would be negative. */
  function CheckedSubU128(a: u128, b: u128): Option<u128>
  {
    if b <= a then Some(a - b) else None
  }

  /** The error of a failed integer narrowing; its only content is private. */
  datatype TryFromIntError = TryFromIntError(detail: ())

  /** `u64::try_from(x: u128)`: fails when `x` does not fit in 64 bits. */
  function TryFromU128(x: u128): Result<u64, TryFromIntError>
  {
    if x <= U64_MAX then Ok(x as u64) else Err(TryFromIntError(()))
  }

  /** `x as u64` for `x: u128`: keeps the low 64 bits, silently. */
  function TruncateToU64(x: u128): u64
  {
    x % U64_MODULUS
  }
}
