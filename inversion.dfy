/**
 * rijndael_inverse: 254 multiplications by x starting from 1, that is x^254,
 * which is the multiplicative inverse of x when x is nonzero and 0 when x is 0.
 */
module Inversion {
  import opened GaloisField
  import opened Bytes
  import opened Powers
  import opened Multiply

  /** The value rijndael_inverse computes: x^254 in the Rijndael field. */
  function Inverse(x: bv8): bv8 {
    FromPoly(Pow(ToPoly(x), Order - 1))
  }

  lemma InversePoly(x: bv8)
    ensures ToPoly(Inverse(x)) == Pow(ToPoly(x), Order - 1)
  {
    ToFromPoly(Pow(ToPoly(x), Order - 1));
  }

  lemma NonzeroPoly(x: bv8)
    ensures x != 0 <==> ToPoly(x) != Zero
  {
    assert ToPoly(0) == Zero;
    ToPolyInjective(x, 0);
  }

  lemma ProductIsOne(a: bv8, b: bv8)
    requires Mul(ToPoly(a), ToPoly(b)) == One
    ensures GMul(a, b) == 1
  {
    assert FromPoly(One) == 1;
  }

  /**
   * a^255 = 1 for a != 0, so a^254 = a^-1: rijndael_multiply(x,
   * rijndael_inverse(x)) == 1 for every nonzero x.
   */
  lemma InverseCancels(x: bv8)
    ensures x != 0 ==> GMul(x, Inverse(x)) == 1
  {
    if x != 0 {
      NonzeroPoly(x);
      InversePoly(x);
      InverseRight(ToPoly(x));
      ProductIsOne(x, Inverse(x));
    }
  }

  /** The inverse of 0 is 0: the first multiplication by 0 already gives 0. */
  lemma InverseZero()
    ensures Inverse(0) == 0
  {
    assert ToPoly(0) == Zero;
    InverseOfZero();
  }

  lemma InverseInvolution(x: bv8)
    ensures Inverse(Inverse(x)) == x
  {
    InversePoly(x);
    Powers.InverseInvolution(ToPoly(x));
    FromToPoly(x);
  }

  /** Any b with a * b == 1 is the inverse of a. */
  lemma InverseUnique(a: bv8, b: bv8)
    requires GMul(a, b) == 1
    ensures b == Inverse(a)
  {
    if a == 0 {
      GMulZero(b);
      GMulComm(a, b);
    } else {
      InverseCancels(a);
      GMulAssoc(b, a, Inverse(a));
      GMulComm(a, b);
      GMulOne(b);
      GMulOneLeft(Inverse(a));
    }
  }

  /** The example of section 5.1.1 of FIPS 197: the inverse of {53} is {ca}. */
  lemma InverseExample()
    ensures Inverse(0x53) == 0xca
  {
    assert ToPoly(0x53) == Poly(true, true, false, false, true, false, true, false);
    assert ToPoly(0xca) == Poly(false, true, false, true, false, false, true, true);
    assert GMul(0x53, 0xca) == 1;
    InverseUnique(0x53, 0xca);
  }

  lemma InverseStep(x: bv8, i: nat, before: bv8, after: bv8)
    requires i >= 1
    requires ToPoly(before) == Pow(ToPoly(x), i - 1)
    requires after == GMul(before, x)
    ensures ToPoly(after) == Pow(ToPoly(x), i)
  {
    GMulPoly(before, x);
  }

  lemma InverseOfPoly(x: bv8, r: bv8, i: nat)
    requires i == Order
    requires ToPoly(r) == Pow(ToPoly(x), i - 1)
    ensures r == Inverse(x)
  {
    FromToPoly(r);
  }

  /**
   * rijndael_inverse: result starts at 1 and is multiplied by x 254 times.
   * For nonzero x that is the multiplicative inverse; for 0 it is 0.
   */
  method RijndaelInverse(x: bv8) returns (result: bv8)
    ensures result == Inverse(x)
    ensures x != 0 ==> GMul(x, result) == 1
    ensures x == 0 ==> result == 0
  {
    result := 1;
    var i := 1;
    while i <= 254
      invariant 1 <= i <= 255
      invariant ToPoly(result) == Pow(ToPoly(x), i - 1)
    {
      ghost var before := result;
      result := RijndaelMultiply(result, x);
      InverseStep(x, i, before, result);
      i := i + 1;
    }
    InverseOfPoly(x, result, i);
    InverseCancels(x);
    InverseZero();
  }
}
