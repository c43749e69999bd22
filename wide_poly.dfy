/**
 * Polynomials of degree below 16 over GF(2), the values the schoolbook
 * multiplication of bytes passes through before it is reduced modulo
 * m(x) = x^8 + x^4 + x^3 + x + 1.
 *
 * Fold(w) is the field element w stands for.  The carry-less product of a
 * and b folds to Mul(a, b), every reduction step leaves Fold unchanged and
 * clears one high coefficient, so the reduced product is Mul(a, b) itself.
 */
module WidePoly {
  import opened GaloisField

  /** A polynomial of degree below 16: coefficients 8..15 in hi, 0..7 in lo. */
  datatype Wide = Wide(hi: Poly, lo: Poly)

  const WZero := Wide(Zero, Zero)

  function WAdd(x: Wide, y: Wide): Wide {
    Wide(Add(x.hi, y.hi), Add(x.lo, y.lo))
  }

  /** x^8 mod m(x). */
  const C := Poly(true, true, false, true, true, false, false, false)

  /** The field element a wide polynomial stands for: lo + hi * (x^8 mod m). */
  function Fold(w: Wide): Poly {
    Add(w.lo, Mul(w.hi, C))
  }

  /** Multiplication by x without reduction (coefficient 15 is dropped). */
  function WX(w: Wide): Wide {
    Wide(Poly(w.lo.c7, w.hi.c0, w.hi.c1, w.hi.c2, w.hi.c3, w.hi.c4, w.hi.c5, w.hi.c6),
         Poly(false, w.lo.c0, w.lo.c1, w.lo.c2, w.lo.c3, w.lo.c4, w.lo.c5, w.lo.c6))
  }

  function Coef(b: Poly, i: nat): bool
    requires i < 8
  {
    match i
    case 0 => b.c0 case 1 => b.c1 case 2 => b.c2 case 3 => b.c3
    case 4 => b.c4 case 5 => b.c5 case 6 => b.c6 case _ => b.c7
  }

  function WCoef(w: Wide, k: nat): bool
    requires k < 16
  {
    if k < 8 then Coef(w.lo, k) else Coef(w.hi, k - 8)
  }

  /** a(x) * x^i */
  function Shifted(a: Poly, i: nat): Wide
    requires i < 8
  {
    match i
    case 0 => Wide(Poly(false, false, false, false, false, false, false, false), Poly(a.c0, a.c1, a.c2, a.c3, a.c4, a.c5, a.c6, a.c7))
    case 1 => Wide(Poly(a.c7, false, false, false, false, false, false, false), Poly(false, a.c0, a.c1, a.c2, a.c3, a.c4, a.c5, a.c6))
    case 2 => Wide(Poly(a.c6, a.c7, false, false, false, false, false, false), Poly(false, false, a.c0, a.c1, a.c2, a.c3, a.c4, a.c5))
    case 3 => Wide(Poly(a.c5, a.c6, a.c7, false, false, false, false, false), Poly(false, false, false, a.c0, a.c1, a.c2, a.c3, a.c4))
    case 4 => Wide(Poly(a.c4, a.c5, a.c6, a.c7, false, false, false, false), Poly(false, false, false, false, a.c0, a.c1, a.c2, a.c3))
    case 5 => Wide(Poly(a.c3, a.c4, a.c5, a.c6, a.c7, false, false, false), Poly(false, false, false, false, false, a.c0, a.c1, a.c2))
    case 6 => Wide(Poly(a.c2, a.c3, a.c4, a.c5, a.c6, a.c7, false, false), Poly(false, false, false, false, false, false, a.c0, a.c1))
    case _ => Wide(Poly(a.c1, a.c2, a.c3, a.c4, a.c5, a.c6, a.c7, false), Poly(false, false, false, false, false, false, false, a.c0))
  }

  /** m(x) * x^(k-8), with m(x) = x^8 + x^4 + x^3 + x + 1. */
  function Modulus(k: nat): Wide
    requires 8 <= k
    decreases k
  {
    if k == 8 then Wide(One, C) else WX(Modulus(k - 1))
  }

  function Term(a: Poly, b: Poly, i: nat): Wide
    requires i < 8
  {
    if Coef(b, i) then Shifted(a, i) else WZero
  }

  function Product(a: Poly, b: Poly, n: nat): Wide
    requires n <= 8
    decreases a, b, n
  {
    if n == 0 then WZero else WAdd(Product(a, b, n - 1), Term(a, b, n - 1))
  }

  function Step(q: Wide, k: nat): Wide
    requires 8 <= k < 16
  {
    if WCoef(q, k) then WAdd(q, Modulus(k)) else q
  }

  function Reduced(p: Wide, k: nat): Wide
    requires 8 <= k <= 16
    decreases p, 16 - k
  {
    if k == 16 then p else Step(Reduced(p, k + 1), k)
  }

  function OneIf(c: bool): Poly { if c then One else Zero }
  function CIf(c: bool): Poly { if c then C else Zero }

  lemma FoldAdd(x: Wide, y: Wide)
    ensures Fold(WAdd(x, y)) == Add(Fold(x), Fold(y))
  {
    MulAddLeft(x.hi, y.hi, C);
    AddSwap(x.lo, y.lo, Mul(x.hi, C), Mul(y.hi, C));
  }

  lemma XSplit(w: Wide)
    requires !w.hi.c7
    ensures Xtime(w.lo) == Add(WX(w).lo, CIf(w.lo.c7))
    ensures WX(w).hi == Add(Xtime(w.hi), OneIf(w.lo.c7))
  {}

  lemma MulBitC(c: bool)
    ensures Mul(OneIf(c), C) == CIf(c)
  {
    if c { MulOneLeft(C); } else { MulZeroLeft(C); }
  }

  lemma Rearrange(p: Poly, q: Poly, r: Poly)
    ensures Add(p, Add(q, r)) == Add(Add(p, r), q)
  {}

  lemma FoldX(w: Wide)
    requires !w.hi.c7
    ensures Fold(WX(w)) == Xtime(Fold(w))
  {
    var lo', hi', m, e := WX(w).lo, WX(w).hi, Mul(w.hi, C), CIf(w.lo.c7);
    XSplit(w);
    MulAddLeft(Xtime(w.hi), OneIf(w.lo.c7), C);
    MulXtimeLeft(w.hi, C);
    MulBitC(w.lo.c7);
    assert Mul(hi', C) == Add(Xtime(m), e);
    XtimeAdd(w.lo, m);
    assert Xtime(Fold(w)) == Add(Add(lo', e), Xtime(m));
    Rearrange(lo', Xtime(m), e);
  }

  /** Coefficients n..7 of h (that is, 8+n..15 of the wide polynomial) are zero. */
  predicate HiZeroFrom(h: Poly, n: nat) {
    (n <= 0 ==> !h.c0) && (n <= 1 ==> !h.c1) && (n <= 2 ==> !h.c2) && (n <= 3 ==> !h.c3) &&
    (n <= 4 ==> !h.c4) && (n <= 5 ==> !h.c5) && (n <= 6 ==> !h.c6) && (n <= 7 ==> !h.c7)
  }

  lemma WXHiZero(w: Wide, n: nat)
    requires HiZeroFrom(w.hi, n)
    ensures HiZeroFrom(WX(w).hi, n + 1)
  {}

  lemma ShiftedStep0(a: Poly, i: nat)
    requires i == 0
    ensures Shifted(a, i + 1) == WX(Shifted(a, i))
  {}

  lemma ShiftedStep1(a: Poly, i: nat)
    requires i == 1
    ensures Shifted(a, i + 1) == WX(Shifted(a, i))
  {}

  lemma ShiftedStep2(a: Poly, i: nat)
    requires i == 2
    ensures Shifted(a, i + 1) == WX(Shifted(a, i))
  {}

  lemma ShiftedStep3(a: Poly, i: nat)
    requires i == 3
    ensures Shifted(a, i + 1) == WX(Shifted(a, i))
  {}

  lemma ShiftedStep4(a: Poly, i: nat)
    requires i == 4
    ensures Shifted(a, i + 1) == WX(Shifted(a, i))
  {}

  lemma ShiftedStep5(a: Poly, i: nat)
    requires i == 5
    ensures Shifted(a, i + 1) == WX(Shifted(a, i))
  {}

  lemma ShiftedStep6(a: Poly, i: nat)
    requires i == 6
    ensures Shifted(a, i + 1) == WX(Shifted(a, i))
  {}

  lemma ShiftedStep(a: Poly, i: nat)
    requires i < 7
    ensures Shifted(a, i + 1) == WX(Shifted(a, i))
  {
    if i == 0 { ShiftedStep0(a, i); }
    else if i == 1 { ShiftedStep1(a, i); }
    else if i == 2 { ShiftedStep2(a, i); }
    else if i == 3 { ShiftedStep3(a, i); }
    else if i == 4 { ShiftedStep4(a, i); }
    else if i == 5 { ShiftedStep5(a, i); }
    else { ShiftedStep6(a, i); }
  }

  lemma {:induction false} ShiftedHiZero(a: Poly, i: nat)
    requires i < 8
    ensures HiZeroFrom(Shifted(a, i).hi, i)
    decreases i
  {
    if 0 < i < 8 {
      ShiftedHiZero(a, i - 1);
      ShiftedStep(a, i - 1);
      WXHiZero(Shifted(a, i - 1), i - 1);
    }
  }

  lemma {:induction false} FoldShifted(a: Poly, i: nat)
    requires i < 8
    ensures Fold(Shifted(a, i)) == XtimePow(a, i)
    decreases i
  {
    if i == 0 {
      MulZeroLeft(C);
      AddZeroRight(a);
    } else {
      FoldShifted(a, i - 1);
      ShiftedHiZero(a, i - 1);
      ShiftedStep(a, i - 1);
      FoldX(Shifted(a, i - 1));
    }
  }

  lemma {:induction false} ModulusHiZero(k: nat)
    requires 8 <= k
    ensures HiZeroFrom(Modulus(k).hi, k - 7)
    decreases k
  {
    if k > 8 {
      ModulusHiZero(k - 1);
      WXHiZero(Modulus(k - 1), k - 8);
    }
  }

  lemma {:induction false} FoldModulus(k: nat)
    requires 8 <= k < 16
    ensures Fold(Modulus(k)) == Zero
    decreases k
  {
    if k == 8 {
      MulOneLeft(C);
    } else {
      FoldModulus(k - 1);
      ModulusHiZero(k - 1);
      FoldX(Modulus(k - 1));
    }
  }

  lemma FoldStep(q: Wide, k: nat)
    requires 8 <= k < 16
    ensures Fold(Step(q, k)) == Fold(q)
  {
    if WCoef(q, k) {
      FoldAdd(q, Modulus(k));
      FoldModulus(k);
      AddZeroRight(Fold(q));
    }
  }

  lemma WXCoef(w: Wide, n: nat)
    requires n < 7
    ensures Coef(WX(w).hi, n + 1) == Coef(w.hi, n)
  {}

  lemma {:induction false} ModulusTop(k: nat)
    requires 8 <= k < 16
    ensures Coef(Modulus(k).hi, k - 8)
    decreases k
  {
    if k > 8 {
      ModulusTop(k - 1);
      WXCoef(Modulus(k - 1), k - 9);
    }
  }

  lemma HiZeroExtend(h: Poly, n: nat)
    requires n < 8
    requires HiZeroFrom(h, n + 1)
    requires !Coef(h, n)
    ensures HiZeroFrom(h, n)
  {}

  lemma AddHiZero(x: Poly, y: Poly, n: nat)
    requires n < 8
    requires HiZeroFrom(x, n + 1) && HiZeroFrom(y, n + 1)
    requires Coef(x, n) && Coef(y, n)
    ensures HiZeroFrom(Add(x, y), n)
  {}

  lemma StepClears(q: Wide, k: nat)
    requires 8 <= k < 16
    requires HiZeroFrom(q.hi, k - 7)
    ensures HiZeroFrom(Step(q, k).hi, k - 8)
  {
    if WCoef(q, k) {
      ModulusHiZero(k);
      ModulusTop(k);
      AddHiZero(q.hi, Modulus(k).hi, k - 8);
    } else {
      HiZeroExtend(q.hi, k - 8);
    }
  }

  lemma {:induction false} ReducedInvariant(p: Wide, k: nat)
    requires 8 <= k <= 16
    ensures Fold(Reduced(p, k)) == Fold(p)
    ensures HiZeroFrom(Reduced(p, k).hi, k - 8)
    decreases 16 - k
  {
    if k < 16 {
      ReducedInvariant(p, k + 1);
      FoldStep(Reduced(p, k + 1), k);
      StepClears(Reduced(p, k + 1), k);
    }
  }

  /** The terms of b below x^n. */
  function Trunc(b: Poly, n: nat): Poly {
    Poly(b.c0 && 0 < n, b.c1 && 1 < n, b.c2 && 2 < n, b.c3 && 3 < n,
         b.c4 && 4 < n, b.c5 && 5 < n, b.c6 && 6 < n, b.c7 && 7 < n)
  }

  function Piece(b: Poly, n: nat): Poly
    requires n < 8
  {
    if Coef(b, n) then Unit(n) else Zero
  }

  lemma TruncStep(b: Poly, n: nat)
    requires n < 8
    ensures Trunc(b, n + 1) == Add(Trunc(b, n), Piece(b, n))
  {}

  lemma TermFold(a: Poly, b: Poly, i: nat)
    requires i < 8
    ensures Fold(Term(a, b, i)) == Mul(a, Piece(b, i))
  {
    if Coef(b, i) {
      FoldShifted(a, i);
      MulUnitPow(a, i);
    } else {
      MulZeroLeft(C);
    }
  }

  lemma {:induction false} FoldProduct(a: Poly, b: Poly, n: nat)
    requires n <= 8
    ensures Fold(Product(a, b, n)) == Mul(a, Trunc(b, n))
    decreases n
  {
    if n == 0 {
      MulZeroLeft(C);
      assert Trunc(b, 0) == Zero;
    } else {
      FoldProduct(a, b, n - 1);
      FoldAdd(Product(a, b, n - 1), Term(a, b, n - 1));
      TermFold(a, b, n - 1);
      TruncStep(b, n - 1);
      MulAddRight(a, Trunc(b, n - 1), Piece(b, n - 1));
    }
  }

  lemma {:induction false} ProductHiZero(a: Poly, b: Poly, n: nat)
    requires n <= 8
    ensures !Product(a, b, n).hi.c7
    decreases n
  {
    if n > 0 {
      ProductHiZero(a, b, n - 1);
      ShiftedHiZero(a, n - 1);
    }
  }

  lemma HiZeroAll(h: Poly)
    requires HiZeroFrom(h, 0)
    ensures h == Zero
  {}

  lemma ReducedResult(p: Wide)
    ensures Reduced(p, 8) == Wide(Zero, Fold(p))
  {
    ReducedInvariant(p, 8);
    HiZeroAll(Reduced(p, 8).hi);
    MulZeroLeft(C);
    AddZeroRight(Reduced(p, 8).lo);
  }

  lemma TruncAll(b: Poly)
    ensures Trunc(b, 8) == b
  {}

  /** The two loops of the schoolbook multiplication compute the field product. */
  lemma MulLoops(a: Poly, b: Poly)
    ensures Reduced(Product(a, b, 8), 8) == Wide(Zero, Mul(a, b))
  {
    ReducedResult(Product(a, b, 8));
    FoldProduct(a, b, 8);
    TruncAll(b);
  }
}
