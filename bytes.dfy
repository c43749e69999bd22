/**
 * Bytes as elements of GF(2^8): bit i of a byte is the coefficient of x^i
 * (section 3.2 of FIPS 197).  GMul is the field product on bytes, the
 * function every multiplication in the cipher is specified against.
 */
module Bytes {
  import opened GaloisField

  /** array<u8, 4>: a four-byte word. */
  type Word = w: seq<bv8> | |w| == 4 witness [0, 0, 0, 0]

  /** array<u8, 16>: a block or a key, column by column (byte r + 4c is row r, column c). */
  type Block = b: seq<bv8> | |b| == 16 witness seq(16, _ => 0)

  /** u8[256]: a byte-indexed lookup table such as the S-box. */
  type Table = t: seq<bv8> | |t| == 256 witness seq(256, _ => 0)

  /** The polynomial a byte stands for. */
  function ToPoly(u: bv8): Poly {
    Poly(u & 1 == 1, u & 2 == 2, u & 4 == 4, u & 8 == 8, u & 16 == 16, u & 32 == 32, u & 64 == 64, u & 128 == 128)
  }

  function Bit(x: bool, w: bv8): bv8 { if x then w else 0 }

  /** The byte a polynomial stands for. */
  function FromPoly(p: Poly): bv8 {
    Bit(p.c0, 1) | Bit(p.c1, 2) | Bit(p.c2, 4) | Bit(p.c3, 8) | Bit(p.c4, 16) | Bit(p.c5, 32) | Bit(p.c6, 64) | Bit(p.c7, 128)
  }

  lemma FromToPoly(u: bv8)
    ensures FromPoly(ToPoly(u)) == u
  {}

  lemma ToFromPoly(p: Poly)
    ensures ToPoly(FromPoly(p)) == p
  {}

  lemma ToPolyInjective(u: bv8, v: bv8)
    ensures ToPoly(u) == ToPoly(v) <==> u == v
  {
    FromToPoly(u);
    FromToPoly(v);
  }

  lemma XorBits(x: bv8, y: bv8)
    ensures ((x ^ y) & 1 == 1) == ((x & 1 == 1) != (y & 1 == 1))
    ensures ((x ^ y) & 2 == 2) == ((x & 2 == 2) != (y & 2 == 2))
    ensures ((x ^ y) & 4 == 4) == ((x & 4 == 4) != (y & 4 == 4))
    ensures ((x ^ y) & 8 == 8) == ((x & 8 == 8) != (y & 8 == 8))
    ensures ((x ^ y) & 16 == 16) == ((x & 16 == 16) != (y & 16 == 16))
    ensures ((x ^ y) & 32 == 32) == ((x & 32 == 32) != (y & 32 == 32))
    ensures ((x ^ y) & 64 == 64) == ((x & 64 == 64) != (y & 64 == 64))
    ensures ((x ^ y) & 128 == 128) == ((x & 128 == 128) != (y & 128 == 128))
  {}

  /** Exclusive or of bytes is field addition. */
  lemma XorPoly(x: bv8, y: bv8)
    ensures ToPoly(x ^ y) == Add(ToPoly(x), ToPoly(y))
  {
    XorBits(x, y);
  }

  /** The field product of two bytes. */
  function GMul(a: bv8, b: bv8): bv8 {
    FromPoly(Mul(ToPoly(a), ToPoly(b)))
  }

  lemma GMulPoly(a: bv8, b: bv8)
    ensures ToPoly(GMul(a, b)) == Mul(ToPoly(a), ToPoly(b))
  {
    ToFromPoly(Mul(ToPoly(a), ToPoly(b)));
  }

  lemma GMulComm(a: bv8, b: bv8)
    ensures GMul(a, b) == GMul(b, a)
  {
    MulComm(ToPoly(a), ToPoly(b));
  }

  lemma GMulAssoc(a: bv8, b: bv8, c: bv8)
    ensures GMul(GMul(a, b), c) == GMul(a, GMul(b, c))
  {
    GMulPoly(a, b);
    GMulPoly(b, c);
    MulAssoc(ToPoly(a), ToPoly(b), ToPoly(c));
  }

  lemma GMulXor(a: bv8, b: bv8, c: bv8)
    ensures GMul(a, b ^ c) == GMul(a, b) ^ GMul(a, c)
  {
    XorPoly(b, c);
    MulAddRight(ToPoly(a), ToPoly(b), ToPoly(c));
    GMulPoly(a, b);
    GMulPoly(a, c);
    XorPoly(GMul(a, b), GMul(a, c));
    FromToPoly(GMul(a, b) ^ GMul(a, c));
  }

  lemma GMulOne(a: bv8)
    ensures GMul(a, 1) == a
  {
    assert ToPoly(1) == One;
    MulOneRight(ToPoly(a));
    FromToPoly(a);
  }

  lemma GMulOneLeft(a: bv8)
    ensures GMul(1, a) == a
  {
    GMulComm(1, a);
    GMulOne(a);
  }

  lemma GMulZero(a: bv8)
    ensures GMul(a, 0) == 0
    ensures GMul(0, a) == 0
  {
    assert ToPoly(0) == Zero;
    MulZeroLeft(ToPoly(a));
  }

  /** The example of section 4.2 of FIPS 197: {57} * {83} = {c1}. */
  lemma ProductExample()
    ensures GMul(0x57, 0x83) == 0xc1
  {
    assert ToPoly(0x57) == Poly(true, true, true, false, true, false, true, false);
    assert ToPoly(0x83) == Poly(true, true, false, false, false, false, false, true);
  }

  /** The second example of section 4.2.1 of FIPS 197: {57} * {13} = {fe}. */
  lemma ProductExampleXtime()
    ensures GMul(0x57, 0x13) == 0xfe
  {
    assert ToPoly(0x57) == Poly(true, true, true, false, true, false, true, false);
    assert ToPoly(0x13) == Poly(true, true, false, false, true, false, false, false);
  }
}
