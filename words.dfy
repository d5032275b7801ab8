/**
 * Fixed-width machine words of the RV64 host: `reg_t` (64 bits), the
 * 65-bit `cheri_length_t` values used as capability tops, and the
 * sign-extension of decoded immediates.  Dafny integers are unbounded, so
 * every wrap-around of the C++ source is written out here.
 */
module Words {

  const TWO64: nat := 0x1_0000_0000_0000_0000
  const TWO128: nat := TWO64 * TWO64

  /** A `reg_t` / `uint64_t` value. */
  type u64 = x: nat | x < TWO64

  /** A `cheri_length_t` (`unsigned __int128`), used for capability tops and lengths. */
  type u128 = x: nat | x < TWO128

  /** A raw 12-bit immediate field of an I-type instruction. */
  type u12 = x: nat | x < 0x1000

  /** The register width of the hart (`xlen`). */
  type Xlen = x: nat | x == 32 || x == 64 witness 64

  datatype Option<T> = None | Some(value: T)

  const UINT64_MAX: u64 := TWO64 - 1

  /** `a + b` on `reg_t`. */
  function Add64(a: u64, b: u64): (r: u64)
    ensures r == (a + b) % TWO64
  {
    if a + b < TWO64 then a + b else a + b - TWO64
  }

  /** `a + b` on `cheri_length_t`. */
  function Add128(a: u128, b: u128): (r: u128)
    ensures r == (a + b) % TWO128
  {
    if a + b < TWO128 then a + b else a + b - TWO128
  }

  /** `a - b` on `cheri_length_t`. */
  function Sub128(a: u128, b: u128): (r: u128)
    ensures r == (a - b) % TWO128
  {
    if a >= b then a - b else a - b + TWO128
  }

  /** `a - b` on `reg_t`. */
  function Sub64(a: u64, b: u64): (r: u64)
    ensures r == (a - b) % TWO64
  {
    if a >= b then a - b else a - b + TWO64
  }

  /** Subtraction undoes addition modulo 2^64. */
  lemma AddSubCancel(a: u64, b: u64)
    ensures Sub64(Add64(a, b), b) == a
    ensures Add64(Sub64(a, b), b) == a
    ensures Add64(b, Sub64(a, b)) == a
  {
  }

  /** `insn.i_imm()`: the 12-bit field sign-extended to an `int64_t`. */
  function SignExtend12(field: u12): (r: int)
    ensures -0x800 <= r < 0x800
    ensures r % 0x1000 == field
  {
    if field < 0x800 then field else field - 0x1000
  }

  /** An `int64_t` converted to `reg_t` (two's complement reinterpretation). */
  function ToU64(x: int): (r: u64)
    requires -0x8000_0000_0000_0000 <= x < 0x8000_0000_0000_0000
    ensures r % TWO64 == x % TWO64
    ensures x >= 0 ==> r == x
  {
    if x >= 0 then x else x + TWO64
  }

  /** `sext_xlen(x)`: keep `x` on RV64; sign-extend its low 32 bits on RV32. */
  function SextXlen(x: u64, xlen: Xlen): (r: u64)
    ensures xlen == 64 ==> r == x
    ensures xlen == 32 ==> r % 0x1_0000_0000 == x % 0x1_0000_0000
    ensures xlen == 32 ==> (r < 0x8000_0000 || r >= TWO64 - 0x8000_0000)
  {
    if xlen == 64 then x
    else
      var low := x % 0x1_0000_0000;
      if low < 0x8000_0000 then low else low + (TWO64 - 0x1_0000_0000)
  }

  /** 2^n. */
  function Pow2(n: nat): (r: nat)
    ensures r > 0
  {
    if n == 0 then 1 else 2 * Pow2(n - 1)
  }

  /** Bit `i` of `x` is 1. */
  predicate TestBit(x: nat, i: nat)
  {
    (x / Pow2(i)) % 2 == 1
  }
}
