/**
 * The field GF(2^8) used by AES, in the polynomial view: an element is a
 * polynomial of degree below 8 over GF(2), coefficient ci standing for x^i.
 * Addition is coefficient-wise exclusive or, and multiplication is polynomial
 * multiplication reduced modulo m(x) = x^8 + x^4 + x^3 + x + 1.
 *
 * Mul is defined by Horner's rule on the second operand, so that every
 * algebraic law below follows by induction on it.
 */
module GaloisField {
  datatype Poly = Poly(c0: bool, c1: bool, c2: bool, c3: bool, c4: bool, c5: bool, c6: bool, c7: bool)

  const Zero := Poly(false, false, false, false, false, false, false, false)
  const One := Poly(true, false, false, false, false, false, false, false)

  /** Field addition: coefficient-wise addition modulo 2. */
  function Add(x: Poly, y: Poly): Poly {
    Poly(x.c0 != y.c0, x.c1 != y.c1, x.c2 != y.c2, x.c3 != y.c3, x.c4 != y.c4, x.c5 != y.c5, x.c6 != y.c6, x.c7 != y.c7)
  }

  /** Multiplication by x, reduced modulo m(x): x^8 becomes x^4 + x^3 + x + 1. */
  function Xtime(a: Poly): Poly {
    Poly(a.c7, a.c0 != a.c7, a.c1, a.c2 != a.c7, a.c3 != a.c7, a.c4, a.c5, a.c6)
  }

  /** The quotient of b by x, dropping the constant coefficient. */
  function Div(b: Poly): Poly {
    Poly(b.c1, b.c2, b.c3, b.c4, b.c5, b.c6, b.c7, false)
  }

  function Weight(x: bool, w: nat): nat { if x then w else 0 }

  /** The value of b read as a binary number; it measures the recursion of Mul. */
  function Val(b: Poly): nat {
    Weight(b.c0, 1) + Weight(b.c1, 2) + Weight(b.c2, 4) + Weight(b.c3, 8) +
    Weight(b.c4, 16) + Weight(b.c5, 32) + Weight(b.c6, 64) + Weight(b.c7, 128)
  }

  /** a times the constant coefficient of b. */
  function Scale(a: Poly, b: Poly): Poly { if b.c0 then a else Zero }

  /** Field multiplication: a * b = x * (a * (b div x)) + a * b0. */
  function Mul(a: Poly, b: Poly): Poly
    decreases Val(b)
  {
    if b == Zero then Zero else Add(Xtime(Mul(a, Div(b))), Scale(a, b))
  }

  lemma AddZeroRight(x: Poly)
    ensures Add(x, Zero) == x
  {}

  lemma XtimeAdd(x: Poly, y: Poly)
    ensures Xtime(Add(x, y)) == Add(Xtime(x), Xtime(y))
  {}

  lemma ScaleAdd(a: Poly, c: Poly, b: Poly)
    ensures Scale(Add(a, c), b) == Add(Scale(a, b), Scale(c, b))
  {}

  lemma AddSwap(p: Poly, q: Poly, r: Poly, s: Poly)
    ensures Add(Add(p, q), Add(r, s)) == Add(Add(p, r), Add(q, s))
  {}

  lemma MulUnfold(a: Poly, b: Poly)
    ensures Mul(a, b) == Add(Xtime(Mul(a, Div(b))), Scale(a, b))
  {}

  lemma {:induction false} MulAddLeft(a: Poly, c: Poly, b: Poly)
    ensures Mul(Add(a, c), b) == Add(Mul(a, b), Mul(c, b))
    decreases Val(b)
  {
    if b != Zero {
      MulAddLeft(a, c, Div(b));
      XtimeAdd(Mul(a, Div(b)), Mul(c, Div(b)));
      ScaleAdd(a, c, b);
      AddSwap(Xtime(Mul(a, Div(b))), Xtime(Mul(c, Div(b))), Scale(a, b), Scale(c, b));
    }
  }

  lemma XtimeScale(y: Poly, a: Poly, b: Poly)
    ensures Add(Xtime(Xtime(y)), Scale(Xtime(a), b)) == Xtime(Add(Xtime(y), Scale(a, b)))
  {
    XtimeAdd(Xtime(y), Scale(a, b));
  }

  lemma {:induction false} MulXtimeLeft(a: Poly, b: Poly)
    ensures Mul(Xtime(a), b) == Xtime(Mul(a, b))
    decreases Val(b)
  {
    if b != Zero {
      MulXtimeLeft(a, Div(b));
      XtimeScale(Mul(a, Div(b)), a, b);
    }
  }

  lemma ZeroStep(b: Poly)
    ensures Add(Xtime(Zero), Scale(Zero, b)) == Zero
  {}

  lemma {:induction false} MulZeroLeft(b: Poly)
    ensures Mul(Zero, b) == Zero
    decreases Val(b)
  {
    if b != Zero {
      MulZeroLeft(Div(b));
      ZeroStep(b);
    }
  }

  lemma MulOneRight(a: Poly)
    ensures Mul(a, One) == a
  {
    assert Div(One) == Zero;
  }

  lemma Split(b: Poly)
    ensures b == Add(Xtime(Div(b)), Scale(One, b))
  {}

  lemma {:induction false} MulOneLeft(b: Poly)
    ensures Mul(One, b) == b
    decreases Val(b)
  {
    if b != Zero {
      MulOneLeft(Div(b));
      Split(b);
    }
  }

  lemma {:induction false} MulScaleOne(a: Poly, b: Poly)
    ensures Mul(Scale(One, b), a) == Scale(a, b)
  {
    if b.c0 {
      MulOneLeft(a);
    } else {
      MulZeroLeft(a);
    }
  }

  lemma CommStep(a: Poly, b: Poly)
    requires b != Zero
    requires Mul(a, Div(b)) == Mul(Div(b), a)
    ensures Mul(a, b) == Mul(b, a)
  {
    var h := Div(b);
    MulXtimeLeft(h, a);
    Split(b);
    MulAddLeft(Xtime(h), Scale(One, b), a);
    MulScaleOne(a, b);
  }

  lemma {:induction false} MulComm(a: Poly, b: Poly)
    ensures Mul(a, b) == Mul(b, a)
    decreases Val(b)
  {
    if b != Zero {
      MulComm(a, Div(b));
      CommStep(a, b);
    } else {
      MulZeroLeft(a);
    }
  }

  lemma MulAddRight(a: Poly, b: Poly, d: Poly)
    ensures Mul(a, Add(b, d)) == Add(Mul(a, b), Mul(a, d))
  {
    MulComm(a, Add(b, d));
    MulComm(a, b);
    MulComm(a, d);
    MulAddLeft(b, d, a);
  }

  lemma MulScaleLeft(a: Poly, b: Poly, c: Poly)
    ensures Mul(Scale(b, c), a) == Scale(Mul(b, a), c)
  {
    if !c.c0 {
      MulZeroLeft(a);
    }
  }

  lemma MulXtimeAddLeft(y: Poly, e: Poly, a: Poly)
    ensures Mul(Add(Xtime(y), e), a) == Add(Xtime(Mul(y, a)), Mul(e, a))
  {
    MulAddLeft(Xtime(y), e, a);
    MulXtimeLeft(y, a);
  }

  lemma MulScaleComm(a: Poly, b: Poly, c: Poly)
    ensures Mul(Scale(b, c), a) == Scale(Mul(a, b), c)
  {
    MulScaleLeft(a, b, c);
    MulComm(a, b);
  }

  lemma RotStep(a: Poly, b: Poly, c: Poly, bc: Poly, bh: Poly)
    requires bc == Add(Xtime(bh), Scale(b, c))
    requires Mul(Mul(a, b), Div(c)) == Mul(bh, a)
    ensures Mul(Mul(a, b), c) == Mul(bc, a)
  {
    MulUnfold(Mul(a, b), c);
    MulXtimeAddLeft(bh, Scale(b, c), a);
    MulScaleComm(a, b, c);
  }

  lemma {:induction false} MulRotate(a: Poly, b: Poly, c: Poly)
    ensures Mul(Mul(a, b), c) == Mul(Mul(b, c), a)
    decreases Val(c)
  {
    if c != Zero {
      MulRotate(a, b, Div(c));
      MulUnfold(b, c);
      RotStep(a, b, c, Mul(b, c), Mul(b, Div(c)));
    } else {
      MulZeroLeft(a);
    }
  }

  lemma MulAssoc(a: Poly, b: Poly, c: Poly)
    ensures Mul(Mul(a, b), c) == Mul(a, Mul(b, c))
  {
    MulRotate(a, b, c);
    MulComm(a, Mul(b, c));
  }

  lemma MulZeroRight(a: Poly)
    ensures Mul(a, Zero) == Zero
  {}

  /** x^j * a, by j successive multiplications by x. */
  function XtimePow(a: Poly, j: nat): Poly
    decreases j
  {
    if j == 0 then a else Xtime(XtimePow(a, j - 1))
  }

  /** The monomial x^i. */
  function Unit(i: nat): Poly
    requires i < 8
  {
    Poly(i == 0, i == 1, i == 2, i == 3, i == 4, i == 5, i == 6, i == 7)
  }

  lemma DivUnit(j: nat)
    requires j < 7
    ensures Div(Unit(j + 1)) == Unit(j)
    ensures Unit(j + 1) != Zero
    ensures !Unit(j + 1).c0
  {}

  lemma UnitStep(a: Poly, j: nat)
    requires j < 7
    ensures Mul(a, Unit(j + 1)) == Xtime(Mul(a, Unit(j)))
  {
    DivUnit(j);
    MulUnfold(a, Unit(j + 1));
    AddZeroRight(Xtime(Mul(a, Unit(j))));
  }

  /** Multiplying by the monomial x^j is j-fold multiplication by x. */
  lemma {:induction false} MulUnitPow(a: Poly, j: nat)
    requires j < 8
    ensures Mul(a, Unit(j)) == XtimePow(a, j)
    decreases j
  {
    if j == 0 {
      assert Unit(0) == One;
      MulOneRight(a);
    } else {
      MulUnitPow(a, j - 1);
      UnitStep(a, j - 1);
    }
  }
}
