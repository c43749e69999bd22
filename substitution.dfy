/**
 * The S-box of section 5.1.1 of FIPS 197: the multiplicative inverse in the
 * Rijndael field followed by an affine transformation over GF(2).
 */
module Substitution {
  import opened Bytes
  import opened Inversion
  import opened Rotations

  /**
   * The affine transformation: b xor its four left rotations by 1..4 bits
   * xor {63}.  Bit i of the rotation by k is bit i - k (mod 8) of b.
   */
  function Affine(b: bv8): bv8 {
    b ^ b.RotateLeft(1) ^ b.RotateLeft(2) ^ b.RotateLeft(3) ^ b.RotateLeft(4) ^ 0x63
  }

  /**
   * Equation (5.1) of FIPS 197, bit by bit: bit i of the result is
   * b_i + b_(i+4) + b_(i+5) + b_(i+6) + b_(i+7) + c_i (indices mod 8),
   * with c = {63}.
   */
  lemma AffineBits(b: bv8)
    ensures (Affine(b) & 1 == 1) == ((((((b & 1 == 1) != (b & 16 == 16)) != (b & 32 == 32)) != (b & 64 == 64)) != (b & 128 == 128)) != true)
    ensures (Affine(b) & 2 == 2) == ((((((b & 2 == 2) != (b & 32 == 32)) != (b & 64 == 64)) != (b & 128 == 128)) != (b & 1 == 1)) != true)
    ensures (Affine(b) & 4 == 4) == ((((((b & 4 == 4) != (b & 64 == 64)) != (b & 128 == 128)) != (b & 1 == 1)) != (b & 2 == 2)) != false)
    ensures (Affine(b) & 8 == 8) == ((((((b & 8 == 8) != (b & 128 == 128)) != (b & 1 == 1)) != (b & 2 == 2)) != (b & 4 == 4)) != false)
    ensures (Affine(b) & 16 == 16) == ((((((b & 16 == 16) != (b & 1 == 1)) != (b & 2 == 2)) != (b & 4 == 4)) != (b & 8 == 8)) != false)
    ensures (Affine(b) & 32 == 32) == ((((((b & 32 == 32) != (b & 2 == 2)) != (b & 4 == 4)) != (b & 8 == 8)) != (b & 16 == 16)) != true)
    ensures (Affine(b) & 64 == 64) == ((((((b & 64 == 64) != (b & 4 == 4)) != (b & 8 == 8)) != (b & 16 == 16)) != (b & 32 == 32)) != true)
    ensures (Affine(b) & 128 == 128) == ((((((b & 128 == 128) != (b & 8 == 8)) != (b & 16 == 16)) != (b & 32 == 32)) != (b & 64 == 64)) != false)
  {}

  /** The inverse affine transformation (section 5.3.2 of FIPS 197). */
  function AffineInverse(b: bv8): bv8 {
    b.RotateLeft(1) ^ b.RotateLeft(3) ^ b.RotateLeft(6) ^ 0x05
  }

  lemma AffineRoundTrip(b: bv8)
    ensures AffineInverse(Affine(b)) == b
    ensures Affine(AffineInverse(b)) == b
  {}

  /** The S-box entry of x: the affine image of the inverse of x. */
  function SBox(x: bv8): bv8 {
    Affine(Inverse(x))
  }

  lemma SBoxInjective(x: bv8, y: bv8)
    requires SBox(x) == SBox(y)
    ensures x == y
  {
    AffineRoundTrip(Inverse(x));
    AffineRoundTrip(Inverse(y));
    InverseInvolution(x);
    InverseInvolution(y);
  }

  /** Every byte is an S-box value: its preimage is Inverse(AffineInverse(b)). */
  lemma SBoxSurjective(b: bv8)
    ensures SBox(Inverse(AffineInverse(b))) == b
  {
    InverseInvolution(AffineInverse(b));
    AffineRoundTrip(b);
  }

  /** sbox_value: inv ^ lcs_8bit(inv, 1) ^ ... ^ lcs_8bit(inv, 4) ^ 0x63. */
  method SBoxValue(input: bv8) returns (result: bv8)
    ensures result == SBox(input)
  {
    var inv := RijndaelInverse(input);
    result := inv ^ Lcs8Bit(inv, 1) ^ Lcs8Bit(inv, 2) ^ Lcs8Bit(inv, 3) ^ Lcs8Bit(inv, 4) ^ 0x63;
  }

  /** The table make_sbox_array fills: entry i is the S-box value of i. */
  function SBoxTable(): Table {
    seq(256, i requires 0 <= i < 256 => SBox(i as bv8))
  }

  lemma SBoxTableAt(b: bv8)
    ensures SBoxTable()[b] == SBox(b)
  {
    assert (b as int) as bv8 == b;
  }

  /** No two entries of the S-box table are equal. */
  lemma SBoxTableInjective(a: bv8, b: bv8)
    ensures SBoxTable()[a] == SBoxTable()[b] ==> a == b
  {
    SBoxTableAt(a);
    SBoxTableAt(b);
    if SBoxTable()[a] == SBoxTable()[b] {
      SBoxInjective(a, b);
    }
  }

  /** Every byte occurs in the S-box table. */
  lemma SBoxTableSurjective(b: bv8)
    ensures exists a: bv8 :: SBoxTable()[a] == b
  {
    var a := Inverse(AffineInverse(b));
    SBoxSurjective(b);
    SBoxTableAt(a);
  }
}
