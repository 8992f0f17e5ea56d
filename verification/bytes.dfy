/**
 * Bytes as the UART carries them. The driver works on Python integers and
 * writes each one with `int.to_bytes(1, "big")`, so a byte here is an `int`
 * in 0..255 and a transmission is a `seq<byte>`.
 */
module Bytes {

  type byte = x: int | 0 <= x < 0x100

  /**
   * `(x >> 8) & 0xFF` on a Python integer. Python's right shift floors and its
   * `&` with a non-negative mask works on the two's-complement form, which for
   * a positive divisor is exactly Dafny's Euclidean `/` and `%`.
   */
  function HighByte(x: int): (r: byte)
    ensures 0 <= x < 0x1_0000 ==> r * 0x100 <= x < r * 0x100 + 0x100
  {
    x / 0x100 % 0x100
  }

  /** `(x >> 0) & 0xFF` on a Python integer. */
  function LowByte(x: int): (r: byte)
    ensures (x - r) % 0x100 == 0
  {
    x % 0x100
  }

  /** Euclidean division is determined by its quotient-remainder equation. */
  lemma DivModUnique(x: int, d: int, q: int, r: int)
    requires 0 < d && 0 <= r < d && x == d * q + r
    ensures x / d == q && x % d == r
  {
    var k := q - x / d;
    assert d * k == x % d - r;
    MulNonNegative(d, k - 1);
    MulNonNegative(d, -k - 1);
    assert d * (k - 1) == d * k - d;
    assert d * (-k - 1) == -(d * k) - d;
  }

  lemma MulNonNegative(a: int, b: int)
    ensures 0 <= a && 0 <= b ==> 0 <= a * b
  {
  }

  /** The two bytes carry the count modulo 2^16, high byte first. */
  lemma WordSplit(x: int)
    ensures HighByte(x) * 0x100 + LowByte(x) == x % 0x1_0000
  {
    var q, lo := x / 0x100, x % 0x100;
    var q2, hi := q / 0x100, q % 0x100;
    assert x == 0x1_0000 * q2 + (hi * 0x100 + lo);
    DivModUnique(x, 0x1_0000, q2, hi * 0x100 + lo);
  }

  /** The two bytes carry the count exactly if and only if it fits in 16 bits. */
  lemma WordSplitExact(x: int)
    ensures HighByte(x) * 0x100 + LowByte(x) == x <==> 0 <= x < 0x1_0000
  {
    WordSplit(x);
    if 0 <= x < 0x1_0000 {
      DivModUnique(x, 0x1_0000, 0, x);
    }
  }

  /** A high byte and a low byte joined big-endian split back into themselves. */
  lemma WordJoin(hi: byte, lo: byte)
    ensures HighByte(hi * 0x100 + lo) == hi && LowByte(hi * 0x100 + lo) == lo
  {
    DivModUnique(hi * 0x100 + lo, 0x100, hi, lo);
    DivModUnique(hi, 0x100, 0, hi);
  }
}
