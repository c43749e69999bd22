/**
 * The two rotations of the source: lcs_8bit rotates the bits of a byte and
 * lcs_4byte rotates the bytes of a four-byte word, both to the left.
 */
module Rotations {
  import opened Bytes

  /**
   * lcs_8bit: ((x << y) % 0x100) + (x >> (8 - y)) evaluated in the int
   * arithmetic C++ promotes the bytes to (16 bits suffice).  For y > 8 the
   * second shift amount is negative, which C++ leaves undefined, hence the
   * precondition; the source calls it with y = 1..4.
   */
  function Lcs8Bit(x: bv8, y: bv8): (r: bv8)
    requires y <= 8
    ensures r == x.RotateLeft(y as nat)
  {
    (((x as bv16 << y) % 0x100) + (x as bv16 >> (8 - y))) as bv8
  }

  lemma Lcs8BitExample()
    ensures Lcs8Bit(0x80, 1) == 0x01
    ensures Lcs8Bit(0x53, 4) == 0x35
  {}

  /** w rotated left by n bytes. */
  function RotateBytes(w: Word, n: nat): Word {
    w[n % 4..] + w[..n % 4]
  }

  /** Byte j of the rotated word is byte (j + n) mod 4 of the original. */
  lemma RotateBytesAt(w: Word, n: nat, j: nat)
    requires j < 4
    ensures RotateBytes(w, n)[j] == w[(j + n) % 4]
  {}

  lemma RotateBytesZero(w: Word)
    ensures RotateBytes(w, 0) == w
    ensures RotateBytes(w, 4) == w
  {
    assert w[0..] == w;
  }

  /** lcs_4byte: y times, x = {x[1], x[2], x[3], x[0]}. */
  method Lcs4Byte(x: Word, y: bv8) returns (r: Word)
    ensures r == RotateBytes(x, y as nat)
  {
    r := x;
    var i := 1;
    while i <= y as int
      invariant 1 <= i <= y as int + 1
      invariant r == RotateBytes(x, i - 1)
    {
      r := [r[1], r[2], r[3], r[0]];
      i := i + 1;
    }
  }
}
