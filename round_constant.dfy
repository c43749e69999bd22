/**
 * round_constant: Rcon of section 5.2 of FIPS 197, computed by recursive
 * doubling in the Rijndael field.
 */
module RoundConstants {
  import opened GaloisField
  import opened Bytes
  import opened Powers

  /** The field element x, {02}. */
  const X := Unit(1)

  /**
   * xtime (section 4.2.1 of FIPS 197): shift left one bit and, when the bit
   * shifted out was set, xor with {1b}.
   */
  function Double(p: bv8): bv8 {
    (p << 1) ^ (if p & 0x80 == 0 then 0 else 0x1b)
  }

  /**
   * round_constant's doubling step, 2 * p when p < 128 and otherwise
   * (2 * p - 256) ^ 0x1b, is xtime.  The source computes 2 * p in int; the
   * 8-bit product 2 * p wraps by exactly the 256 the source subtracts.
   */
  lemma DoubleBranch(p: bv8)
    ensures (if p < 128 then 2 * p else (2 * p) ^ 0x1b) == Double(p)
  {}

  /** Doubling is multiplication by x. */
  lemma DoubleXtime(p: bv8)
    ensures ToPoly(Double(p)) == Xtime(ToPoly(p))
  {}

  /**
   * round_constant(char i).  The parameter is a signed char, -128..127: for
   * i <= 0 the recursion steps down to -128, where i - 1 wraps around to 127,
   * and then down to 1, so every char argument terminates.  Doubling never
   * reaches 0, so neither does any round constant.
   */
  function RoundConstant(i: int): (r: bv8)
    requires -128 <= i < 128
    ensures r != 0
    decreases (i - 1) % 256
  {
    if i == 1 then 1
    else Double(RoundConstant(if i == -128 then 127 else i - 1))
  }

  lemma DoublePower(p: bv8, n: nat)
    requires ToPoly(p) == Pow(X, n)
    ensures ToPoly(Double(p)) == Pow(X, n + 1)
  {
    DoubleXtime(p);
    MulUnitPow(Pow(X, n), 1);
  }

  /**
   * round_constant(i) is x^(i - 1) for i = 1..127, and x^(i + 255) for the
   * char arguments i <= 0 that wrap around.
   */
  lemma {:induction false} RoundConstantPower(i: int)
    requires -128 <= i < 128
    ensures ToPoly(RoundConstant(i)) == Pow(X, (i - 1) % 256)
    decreases (i - 1) % 256
  {
    if i == 1 {
      assert ToPoly(1) == One;
    } else {
      var j := if i == -128 then 127 else i - 1;
      RoundConstantPower(j);
      DoublePower(RoundConstant(j), (j - 1) % 256);
      assert (i - 1) % 256 == (j - 1) % 256 + 1;
    }
  }

  /** The ten round constants AES-128 uses (section 5.2 of FIPS 197). */
  lemma RoundConstantValues()
    ensures RoundConstant(1) == 0x01 && RoundConstant(2) == 0x02
    ensures RoundConstant(3) == 0x04 && RoundConstant(4) == 0x08
    ensures RoundConstant(5) == 0x10 && RoundConstant(6) == 0x20
    ensures RoundConstant(7) == 0x40 && RoundConstant(8) == 0x80
    ensures RoundConstant(9) == 0x1b && RoundConstant(10) == 0x36
  {
    assert RoundConstant(2) == 0x02;
    assert RoundConstant(3) == 0x04;
    assert RoundConstant(4) == 0x08;
    assert RoundConstant(5) == 0x10;
    assert RoundConstant(6) == 0x20;
    assert RoundConstant(7) == 0x40;
    assert RoundConstant(8) == 0x80;
    assert RoundConstant(9) == 0x1b;
  }
}
