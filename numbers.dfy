/** Fixed-width machine numbers shared by the three value models. */
module Numbers {

  const I64_MIN: int := -0x8000_0000_0000_0000
  const I64_MAX: int := 0x7FFF_FFFF_FFFF_FFFF
  const U64_MAX: int := 0xFFFF_FFFF_FFFF_FFFF

  /** Rust's `i64`. */
  type I64 = x: int | I64_MIN <= x <= I64_MAX

  /** Rust's `u64`. */
  type U64 = x: int | 0 <= x <= U64_MAX

  /** A strictly negative `i64`: the payload of a `NegInt` number. */
  type NegI64 = x: int | I64_MIN <= x < 0 witness -1

  /**
    An IEEE-754 binary64 value, kept as its bit pattern. No float
    arithmetic is modelled; only finiteness matters to the conversions.
   */
  datatype F64 = F64(bits: bv64)

  /** A binary64 value is finite unless its 11-bit exponent field is all ones (NaN or infinity). */
  predicate IsFinite(f: F64) {
    (f.bits >> 52) & 0x7FF != 0x7FF
  }

  type FiniteF64 = f: F64 | IsFinite(f) witness F64(0)
}
