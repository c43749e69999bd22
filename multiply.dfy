/**
 * rijndael_multiply on machine words.  The 16-bit accumulator (a C++
 * `short` holding values below 0x8000) is a bv16; ToWide reads its bits as
 * a Wide polynomial, and the small lemmas below connect each bit test, shift
 * and xor of the source to the polynomial operations of WidePoly.
 *
 * The shift amounts are loop indices, and bit-vector facts about a symbolic
 * shift are expensive for the solver, so the shift and bit-test facts are
 * proved for a few index values at a time and dispatched by the index.
 */
module Multiply {
  import opened GaloisField
  import opened Bytes
  import opened WidePoly

  /** The bits of a 16-bit accumulator as a polynomial of degree below 16. */
  function ToWide(x: bv16): Wide {
    Wide(Poly(x & 0x100 == 0x100, x & 0x200 == 0x200, x & 0x400 == 0x400, x & 0x800 == 0x800,
              x & 0x1000 == 0x1000, x & 0x2000 == 0x2000, x & 0x4000 == 0x4000, x & 0x8000 == 0x8000),
         Poly(x & 1 == 1, x & 2 == 2, x & 4 == 4, x & 8 == 8, x & 16 == 16, x & 32 == 32, x & 64 == 64, x & 128 == 128))
  }

  lemma XorBits16(x: bv16, y: bv16)
    ensures ((x ^ y) & 1 == 1) == ((x & 1 == 1) != (y & 1 == 1))
    ensures ((x ^ y) & 2 == 2) == ((x & 2 == 2) != (y & 2 == 2))
    ensures ((x ^ y) & 4 == 4) == ((x & 4 == 4) != (y & 4 == 4))
    ensures ((x ^ y) & 8 == 8) == ((x & 8 == 8) != (y & 8 == 8))
    ensures ((x ^ y) & 16 == 16) == ((x & 16 == 16) != (y & 16 == 16))
    ensures ((x ^ y) & 32 == 32) == ((x & 32 == 32) != (y & 32 == 32))
    ensures ((x ^ y) & 64 == 64) == ((x & 64 == 64) != (y & 64 == 64))
    ensures ((x ^ y) & 128 == 128) == ((x & 128 == 128) != (y & 128 == 128))
    ensures ((x ^ y) & 256 == 256) == ((x & 256 == 256) != (y & 256 == 256))
    ensures ((x ^ y) & 512 == 512) == ((x & 512 == 512) != (y & 512 == 512))
    ensures ((x ^ y) & 1024 == 1024) == ((x & 1024 == 1024) != (y & 1024 == 1024))
    ensures ((x ^ y) & 2048 == 2048) == ((x & 2048 == 2048) != (y & 2048 == 2048))
    ensures ((x ^ y) & 4096 == 4096) == ((x & 4096 == 4096) != (y & 4096 == 4096))
    ensures ((x ^ y) & 8192 == 8192) == ((x & 8192 == 8192) != (y & 8192 == 8192))
    ensures ((x ^ y) & 16384 == 16384) == ((x & 16384 == 16384) != (y & 16384 == 16384))
    ensures ((x ^ y) & 32768 == 32768) == ((x & 32768 == 32768) != (y & 32768 == 32768))
  {}

  lemma XorWide(x: bv16, y: bv16)
    ensures ToWide(x ^ y) == WAdd(ToWide(x), ToWide(y))
  {
    XorBits16(x, y);
  }

  lemma Widen(a: bv8)
    ensures ToWide(a as bv16) == Wide(Zero, ToPoly(a))
  {}

  lemma LowByte(x: bv16)
    ensures ToPoly((x & 0xFF) as bv8) == ToWide(x).lo
  {}

  lemma Top(x: bv16)
    ensures !ToWide(x).hi.c7 <==> x < 0x8000
  {}

  lemma BitTestLow0(b: bv8, i: nat)
    requires 0 <= i < 2
    ensures ((b & (1 << i)) == (1 << i)) == Coef(ToPoly(b), i)
  {}

  lemma BitTestLow2(b: bv8, i: nat)
    requires 2 <= i < 4
    ensures ((b & (1 << i)) == (1 << i)) == Coef(ToPoly(b), i)
  {}

  lemma BitTestLow4(b: bv8, i: nat)
    requires 4 <= i < 6
    ensures ((b & (1 << i)) == (1 << i)) == Coef(ToPoly(b), i)
  {}

  lemma BitTestLow6(b: bv8, i: nat)
    requires 6 <= i < 8
    ensures ((b & (1 << i)) == (1 << i)) == Coef(ToPoly(b), i)
  {}

  lemma BitTestLow(b: bv8, i: nat)
    requires i < 8
    ensures ((b & (1 << i)) == (1 << i)) == Coef(ToPoly(b), i)
  {
    if i < 2 { BitTestLow0(b, i); }
    else if i < 4 { BitTestLow2(b, i); }
    else if i < 6 { BitTestLow4(b, i); }
    else { BitTestLow6(b, i); }
  }

  lemma BitTestHigh8(x: bv16, i: nat)
    requires 8 <= i < 10
    ensures ((x & (1 << i)) == (1 << i)) == WCoef(ToWide(x), i)
  {}

  lemma BitTestHigh10(x: bv16, i: nat)
    requires 10 <= i < 12
    ensures ((x & (1 << i)) == (1 << i)) == WCoef(ToWide(x), i)
  {}

  lemma BitTestHigh12(x: bv16, i: nat)
    requires 12 <= i < 14
    ensures ((x & (1 << i)) == (1 << i)) == WCoef(ToWide(x), i)
  {}

  lemma BitTestHigh14(x: bv16, i: nat)
    requires 14 <= i < 16
    ensures ((x & (1 << i)) == (1 << i)) == WCoef(ToWide(x), i)
  {}

  lemma BitTestHigh(x: bv16, i: nat)
    requires 8 <= i < 16
    ensures ((x & (1 << i)) == (1 << i)) == WCoef(ToWide(x), i)
  {
    if i < 10 { BitTestHigh8(x, i); }
    else if i < 12 { BitTestHigh10(x, i); }
    else if i < 14 { BitTestHigh12(x, i); }
    else { BitTestHigh14(x, i); }
  }

  lemma ShiftAtLow(a: bv8, i: nat)
    requires i < 4
    ensures ToWide((a as bv16) << i) == Shifted(ToPoly(a), i)
  {
    if i == 0 {
    } else if i == 1 {
    } else if i == 2 {
    } else {
      assert i == 3;
    }
  }

  lemma ShiftAtMid(a: bv8, i: nat)
    requires 4 <= i < 6
    ensures ToWide((a as bv16) << i) == Shifted(ToPoly(a), i)
  {
    if i == 4 {
    } else {
      assert i == 5;
    }
  }

  lemma ShiftAtHigh(a: bv8, i: nat)
    requires 6 <= i < 8
    ensures ToWide((a as bv16) << i) == Shifted(ToPoly(a), i)
  {
    if i == 6 {
    } else {
      assert i == 7;
    }
  }

  lemma ShiftAt(a: bv8, i: nat)
    requires i < 8
    ensures ToWide((a as bv16) << i) == Shifted(ToPoly(a), i)
  {
    if i < 4 { ShiftAtLow(a, i); }
    else if i < 6 { ShiftAtMid(a, i); }
    else { ShiftAtHigh(a, i); }
  }

  lemma ModulusAt(i: nat)
    requires 8 <= i < 16
    ensures ToWide(0x11b << (i - 8)) == Modulus(i)
  {
    if i == 8 {
    } else if i == 9 {
    } else if i == 10 {
    } else if i == 11 {
    } else if i == 12 {
    } else if i == 13 {
    } else if i == 14 {
    } else {
      assert i == 15;
    }
  }

  lemma ProductStep(a: Poly, b: Poly, i: nat, c: bool, w: Wide, x: Wide, next: Wide)
    requires i < 8
    requires c == Coef(b, i)
    requires x == Shifted(a, i)
    requires w == Product(a, b, i)
    requires next == if c then WAdd(w, x) else w
    ensures next == Product(a, b, i + 1)
    ensures !next.hi.c7
  {
    ProductHiZero(a, b, i + 1);
    if !c {
      assert WAdd(w, WZero) == w;
    }
  }

  lemma MultiplyStep(a: bv8, b: bv8, i: nat, x: bv16, c: bool, result: bv16, next: bv16)
    requires i < 8
    requires x == (a as bv16) << i
    requires c == ((b & (1 << i)) == (1 << i))
    requires next == if c then result ^ x else result
    requires ToWide(result) == Product(ToPoly(a), ToPoly(b), i)
    ensures ToWide(next) == Product(ToPoly(a), ToPoly(b), i + 1)
    ensures next < 0x8000
  {
    BitTestLow(b, i);
    ShiftAt(a, i);
    XorWide(result, x);
    ProductStep(ToPoly(a), ToPoly(b), i, c, ToWide(result), ToWide(x), ToWide(next));
    Top(next);
  }

  lemma ReduceStep(p: Wide, i: nat, m: bv16, c: bool, result: bv16, next: bv16)
    requires 8 <= i < 16
    requires m == 0x11b << (i - 8)
    requires c == ((result & (1 << i)) == (1 << i))
    requires next == if c then result ^ m else result
    requires ToWide(result) == Reduced(p, i + 1)
    ensures ToWide(next) == Reduced(p, i)
    ensures next < 0x8000
  {
    BitTestHigh(result, i);
    ModulusAt(i);
    XorWide(result, m);
    ReducedInvariant(p, i);
    Top(next);
  }

  /**
   * The first loop of rijndael_multiply ("binary multiply"): xor a shifted
   * left by i into the accumulator for every bit i set in b.  The result is
   * the carry-less product of a and b, of degree at most 14.
   */
  method CarrylessProduct(a: bv8, b: bv8) returns (result: bv16)
    ensures ToWide(result) == Product(ToPoly(a), ToPoly(b), 8)
    ensures result < 0x8000
  {
    result := 0;
    var i: nat := 0;
    while i <= 7
      invariant i <= 8
      invariant ToWide(result) == Product(ToPoly(a), ToPoly(b), i)
      invariant result < 0x8000
    {
      ghost var before := result;
      var hit := (b & (1 << i)) == (1 << i);
      var shifted := (a as bv16) << i;
      if hit {
        result := result ^ shifted;
      }
      MultiplyStep(a, b, i, shifted, hit, before, result);
      i := i + 1;
    }
  }

  /**
   * The second loop of rijndael_multiply ("modulus equivalent"): from bit 15
   * down to bit 8, cancel a set bit i by xoring in 0x11b shifted left by
   * i - 8.  On any 16-bit input this is the reduction Reduced(_, 8).
   */
  method Reduce(p: bv16) returns (result: bv16)
    ensures ToWide(result) == Reduced(ToWide(p), 8)
  {
    result := p;
    var i: int := 15;
    while i >= 8
      invariant 7 <= i <= 15
      invariant ToWide(result) == Reduced(ToWide(p), i + 1)
    {
      ghost var before := result;
      var hit := (result & (1 << i)) == (1 << i);
      var m := 0x11b << (i - 8);
      if hit {
        result := result ^ m;
      }
      ReduceStep(ToWide(p), i, m, hit, before, result);
      i := i - 1;
    }
  }

  /**
   * rijndael_multiply: the product of a and b in the Rijndael field, the
   * low byte of the reduced accumulator.
   */
  method RijndaelMultiply(a: bv8, b: bv8) returns (r: bv8)
    ensures r == GMul(a, b)
  {
    var product := CarrylessProduct(a, b);
    var reduced := Reduce(product);
    r := (reduced & 0xFF) as bv8;
    MulLoops(ToPoly(a), ToPoly(b));
    LowByte(reduced);
    FromToPoly(r);
  }
}
