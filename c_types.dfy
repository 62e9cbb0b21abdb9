/**
 * C integer types of the tundra sources and the wrap-around conversions the
 * compiled code performs between them (two's complement, as GCC and Clang do).
 */
module CTypes {

  const TWO_31: int := 0x8000_0000
  const TWO_32: int := 0x1_0000_0000
  const TWO_64: int := 0x1_0000_0000_0000_0000

  type int32 = x: int | -0x8000_0000 <= x < 0x8000_0000
  type uint32 = x: int | 0 <= x < 0x1_0000_0000
  type usize = x: int | 0 <= x < 0x1_0000_0000_0000_0000

  datatype Option<T> = None | Some(value: T)

  function Pow2(n: nat): (p: nat)
    ensures p >= 1
  {
    if n == 0 then 1 else 2 * Pow2(n - 1)
  }

  /** The 32-bit pattern of an integer, read as an unsigned number. */
  function Bits32(v: int): (u: uint32)
    ensures (u - v) % TWO_32 == 0
  {
    v % TWO_32
  }

  /**
   * Bitwise exclusive or of the low `n` bits of `a` and `b`, written out on
   * integers bit by bit (the `^` operator of C on unsigned patterns).
   */
  function Xor(a: nat, b: nat, n: nat): (r: nat)
    ensures r < Pow2(n)
  {
    if n == 0 then 0 else (a % 2 + b % 2) % 2 + 2 * Xor(a / 2, b / 2, n - 1)
  }

  /** `^` on two 32-bit patterns. */
  function Xor32(a: uint32, b: uint32): (r: uint32)
  {
    Pow2Is32();
    Xor(a, b, 32)
  }

  lemma Pow2Is32()
    ensures Pow2(32) == TWO_32
  {
    assert Pow2(8) == 256;
    assert Pow2(16) == 256 * 256 by { Pow2Add(8, 8); }
    Pow2Add(16, 16);
  }

  lemma {:induction false} Pow2Add(a: nat, b: nat)
    ensures Pow2(a + b) == Pow2(a) * Pow2(b)
  {
    if a > 0 {
      Pow2Add(a - 1, b);
    }
  }

  /** Conversion of any integer to `int` with wrap-around modulo 2^32. */
  function Wrap32(v: int): (r: int32)
    ensures (r - v) % TWO_32 == 0
    ensures -TWO_31 <= v < TWO_31 ==> r == v
  {
    var m := v % TWO_32;
    if m < TWO_31 then m else m - TWO_32
  }

  /** A signed `int` converted to `unsigned int` (adds 2^32 when negative). */
  function ToUnsigned32(v: int32): (r: uint32)
    ensures (r - v) % TWO_32 == 0
    ensures 0 <= v ==> r == v
  {
    if v < 0 then v + TWO_32 else v
  }

  /** A signed `int` converted to `size_t` (adds 2^64 when negative). */
  function ToUsize(v: int32): (r: usize)
    ensures (r - v) % TWO_64 == 0
    ensures 0 <= v ==> r == v
  {
    if v < 0 then v + TWO_64 else v
  }

  /** C's `/` on `int`: the quotient is truncated toward zero. */
  function CDiv(a: int, b: int): (q: int)
    requires b != 0
    ensures 0 <= a && 0 < b ==> q == a / b
    ensures a < 0 && 0 < b ==> q == -((-a) / b)
  {
    if (a < 0) == (b < 0) then Abs(a) / Abs(b) else -(Abs(a) / Abs(b))
  }

  function Abs(a: int): (r: nat)
    ensures r == a || r == -a
  {
    if a < 0 then -a else a
  }

  /** C's conversion of a float to an integer type: truncation toward zero. */
  function Trunc(r: real): (i: int)
    ensures 0.0 <= r ==> i == r.Floor
    ensures Abs(i) as real <= (if r < 0.0 then -r else r) < Abs(i) as real + 1.0
  {
    if r < 0.0 then -((-r).Floor) else r.Floor
  }
}
