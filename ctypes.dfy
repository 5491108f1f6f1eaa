/** Machine-level shapes of the values that cross the XPLM C interface. */
module CTypes {
  /** An opaque host pointer or handle; 0 is the null pointer. */
  type Ptr = nat

  const NULL: Ptr := 0

  /** A pointer the wrappers have checked against null. */
  type NonNull = p: Ptr | p != NULL witness 1

  /** An unsigned byte (`u8`). */
  type Byte = b: int | 0 <= b < 256

  const I32_MIN: int := -0x8000_0000
  const I32_MAX: int := 0x7fff_ffff
  const TWO_POW_32: int := 0x1_0000_0000

  predicate IsI32(x: int) { I32_MIN <= x <= I32_MAX }

  /** A C `int` / Rust `i32`. */
  type I32 = x: int | IsI32(x)

  /** A C `char` as Rust sees it on the platforms X-Plane runs on: an `i8`. */
  type I8 = x: int | -128 <= x <= 127

  /**
   * Two's complement wrap-around into 32 bits: what an `i32` addition or
   * subtraction yields on overflow in a release build.
   */
  function Wrap32(x: int): (r: I32)
    ensures IsI32(x) ==> r == x
    ensures (x - r) % TWO_POW_32 == 0
  {
    (x - I32_MIN) % TWO_POW_32 + I32_MIN
  }

  /** Two integers that differ by a multiple of 2^32 wrap to the same `i32`. */
  lemma {:induction false} Wrap32Congruent(a: int, b: int, k: int)
    requires a == b + k * TWO_POW_32
    ensures Wrap32(a) == Wrap32(b)
  {
    var q, r := (b - I32_MIN) / 0x1_0000_0000, (b - I32_MIN) % 0x1_0000_0000;
    assert b - I32_MIN == q * 0x1_0000_0000 + r;
    assert a - I32_MIN == (q + k) * 0x1_0000_0000 + r;
  }

  /** The byte `c as u8` gives for a C `char`: the same 8 bits, read unsigned. */
  function I8AsU8(c: I8): (b: Byte)
    ensures c >= 0 ==> b == c
    ensures c < 0 ==> b == c + 256
  {
    if c < 0 then c + 256 else c
  }
}
