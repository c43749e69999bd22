/**
 * Powers in the Rijndael field and the facts behind rijndael_inverse:
 * squaring is additive (the Frobenius map), x^256 == x for every x, the
 * only solutions of e * e == e are 0 and 1, and therefore x^254 is the
 * multiplicative inverse of every nonzero x (while 0^254 == 0).
 */
module Powers {
  import opened GaloisField

  /** x^n, accumulated as the loop of rijndael_inverse does: x^n = x^(n-1) * x. */
  function Pow(x: Poly, n: nat): Poly
    decreases n
  {
    if n == 0 then One else Mul(Pow(x, n - 1), x)
  }

  lemma AssocStep(p: Poly, q: Poly, r: Poly, x: Poly)
    requires r == Mul(p, q)
    ensures Mul(r, x) == Mul(p, Mul(q, x))
  {
    MulAssoc(p, q, x);
  }

  lemma {:induction false} PowAdd(x: Poly, m: nat, n: nat)
    ensures Pow(x, m + n) == Mul(Pow(x, m), Pow(x, n))
    decreases n
  {
    if n == 0 {
      MulOneRight(Pow(x, m));
    } else {
      PowAdd(x, m, n - 1);
      assert Pow(x, m + n) == Mul(Pow(x, m + n - 1), x);
      AssocStep(Pow(x, m), Pow(x, n - 1), Pow(x, m + n - 1), x);
    }
  }

  lemma PowOne(x: Poly)
    ensures Pow(x, 1) == x
  {
    MulOneLeft(x);
  }

  lemma {:induction false} PowMul(x: Poly, m: nat, n: nat)
    ensures Pow(x, m * n) == Pow(Pow(x, m), n)
    decreases n
  {
    if n != 0 {
      PowMul(x, m, n - 1);
      assert m * n == m * (n - 1) + m;
      PowAdd(x, m * (n - 1), m);
      assert Pow(Pow(x, m), n) == Mul(Pow(Pow(x, m), n - 1), Pow(x, m));
    }
  }

  lemma {:induction false} PowZero(n: nat)
    requires n >= 1
    ensures Pow(Zero, n) == Zero
  {
    MulZeroRight(Pow(Zero, n - 1));
  }

  function Sq(a: Poly): Poly {
    Mul(a, a)
  }

  lemma Cancel(p: Poly, q: Poly, r: Poly)
    ensures Add(Add(p, q), Add(q, r)) == Add(p, r)
  {}

  /** (a + b)^2 == a^2 + b^2: the cross terms a*b and b*a cancel. */
  lemma SqAdd(a: Poly, b: Poly)
    ensures Sq(Add(a, b)) == Add(Sq(a), Sq(b))
  {
    MulAddLeft(a, b, Add(a, b));
    MulAddRight(a, a, b);
    MulAddRight(b, a, b);
    MulComm(b, a);
    Cancel(Mul(a, a), Mul(a, b), Mul(b, b));
  }

  lemma SqXtime(d: Poly)
    ensures Sq(Xtime(d)) == Xtime(Xtime(Sq(d)))
  {
    MulXtimeLeft(d, Xtime(d));
    MulComm(d, Xtime(d));
    MulXtimeLeft(d, d);
  }

  lemma SqScale(e: Poly)
    ensures Sq(Scale(One, e)) == Scale(One, e)
  {
    if e.c0 {
      MulOneRight(One);
    } else {
      MulZeroLeft(Zero);
    }
  }

  /** Squaring by Horner's rule on the coefficients of e. */
  lemma SqStep(e: Poly)
    ensures Sq(e) == Add(Xtime(Xtime(Sq(Div(e)))), Scale(One, e))
  {
    Split(e);
    SqAdd(Xtime(Div(e)), Scale(One, e));
    SqXtime(Div(e));
    SqScale(e);
  }

  /** The coefficients k..7 of e, as a polynomial: e div x^k. */
  function Tail(e: Poly, k: nat): Poly
    requires k < 8
  {
    match k
    case 0 => e
    case 1 => Poly(e.c1, e.c2, e.c3, e.c4, e.c5, e.c6, e.c7, false)
    case 2 => Poly(e.c2, e.c3, e.c4, e.c5, e.c6, e.c7, false, false)
    case 3 => Poly(e.c3, e.c4, e.c5, e.c6, e.c7, false, false, false)
    case 4 => Poly(e.c4, e.c5, e.c6, e.c7, false, false, false, false)
    case 5 => Poly(e.c5, e.c6, e.c7, false, false, false, false, false)
    case 6 => Poly(e.c6, e.c7, false, false, false, false, false, false)
    case _ => Poly(e.c7, false, false, false, false, false, false, false)
  }

  /** Sq(t) from the square of t div x, one Horner step. */
  lemma SqFromTail(t: Poly, d: Poly, f: Poly)
    requires Div(t) == d
    requires Sq(d) == f
    ensures Sq(t) == Add(Xtime(Xtime(f)), Scale(One, t))
  {
    SqStep(t);
  }

  lemma SqTail7(e: Poly)
    ensures Sq(Tail(e, 7)) == Poly(e.c7, false, false, false, false, false, false, false)
  {
    if e.c7 {
      assert Tail(e, 7) == One;
      MulOneRight(One);
    } else {
      assert Tail(e, 7) == Zero;
      MulZeroLeft(Zero);
    }
  }

  lemma TailStep6(e: Poly)
    ensures Div(Tail(e, 6)) == Tail(e, 7)
    ensures Add(Xtime(Xtime(Poly(e.c7, false, false, false, false, false, false, false))), Scale(One, Tail(e, 6))) == Poly(e.c6, false, e.c7, false, false, false, false, false)
  {}

  lemma SqTail6(e: Poly)
    ensures Sq(Tail(e, 6)) == Poly(e.c6, false, e.c7, false, false, false, false, false)
  {
    SqTail7(e);
    TailStep6(e);
    SqFromTail(Tail(e, 6), Tail(e, 7), Poly(e.c7, false, false, false, false, false, false, false));
  }

  lemma TailStep5(e: Poly)
    ensures Div(Tail(e, 5)) == Tail(e, 6)
    ensures Add(Xtime(Xtime(Poly(e.c6, false, e.c7, false, false, false, false, false))), Scale(One, Tail(e, 5))) == Poly(e.c5, false, e.c6, false, e.c7, false, false, false)
  {}

  lemma SqTail5(e: Poly)
    ensures Sq(Tail(e, 5)) == Poly(e.c5, false, e.c6, false, e.c7, false, false, false)
  {
    SqTail6(e);
    TailStep5(e);
    SqFromTail(Tail(e, 5), Tail(e, 6), Poly(e.c6, false, e.c7, false, false, false, false, false));
  }

  lemma TailStep4(e: Poly)
    ensures Div(Tail(e, 4)) == Tail(e, 5)
    ensures Add(Xtime(Xtime(Poly(e.c5, false, e.c6, false, e.c7, false, false, false))), Scale(One, Tail(e, 4))) == Poly(e.c4, false, e.c5, false, e.c6, false, e.c7, false)
  {}

  lemma SqTail4(e: Poly)
    ensures Sq(Tail(e, 4)) == Poly(e.c4, false, e.c5, false, e.c6, false, e.c7, false)
  {
    SqTail5(e);
    TailStep4(e);
    SqFromTail(Tail(e, 4), Tail(e, 5), Poly(e.c5, false, e.c6, false, e.c7, false, false, false));
  }

  lemma TailStep3(e: Poly)
    ensures Div(Tail(e, 3)) == Tail(e, 4)
    ensures Add(Xtime(Xtime(Poly(e.c4, false, e.c5, false, e.c6, false, e.c7, false))), Scale(One, Tail(e, 3))) == Poly((e.c3 != e.c7), e.c7, e.c4, e.c7, (e.c5 != e.c7), false, e.c6, false)
  {}

  lemma SqTail3(e: Poly)
    ensures Sq(Tail(e, 3)) == Poly((e.c3 != e.c7), e.c7, e.c4, e.c7, (e.c5 != e.c7), false, e.c6, false)
  {
    SqTail4(e);
    TailStep3(e);
    SqFromTail(Tail(e, 3), Tail(e, 4), Poly(e.c4, false, e.c5, false, e.c6, false, e.c7, false));
  }

  lemma TailStep2(e: Poly)
    ensures Div(Tail(e, 2)) == Tail(e, 3)
    ensures Add(Xtime(Xtime(Poly((e.c3 != e.c7), e.c7, e.c4, e.c7, (e.c5 != e.c7), false, e.c6, false))), Scale(One, Tail(e, 2))) == Poly((e.c2 != e.c6), e.c6, (e.c3 != e.c7), (e.c6 != e.c7), (e.c4 != e.c6), e.c7, (e.c5 != e.c7), false)
  {}

  lemma SqTail2(e: Poly)
    ensures Sq(Tail(e, 2)) == Poly((e.c2 != e.c6), e.c6, (e.c3 != e.c7), (e.c6 != e.c7), (e.c4 != e.c6), e.c7, (e.c5 != e.c7), false)
  {
    SqTail3(e);
    TailStep2(e);
    SqFromTail(Tail(e, 2), Tail(e, 3), Poly((e.c3 != e.c7), e.c7, e.c4, e.c7, (e.c5 != e.c7), false, e.c6, false));
  }

  lemma TailStep1(e: Poly)
    ensures Div(Tail(e, 1)) == Tail(e, 2)
    ensures Add(Xtime(Xtime(Poly((e.c2 != e.c6), e.c6, (e.c3 != e.c7), (e.c6 != e.c7), (e.c4 != e.c6), e.c7, (e.c5 != e.c7), false))), Scale(One, Tail(e, 1))) == Poly(((e.c1 != e.c5) != e.c7), (e.c5 != e.c7), (e.c2 != e.c6), ((e.c5 != e.c6) != e.c7), (e.c3 != e.c5), (e.c6 != e.c7), (e.c4 != e.c6), e.c7)
  {}

  lemma SqTail1(e: Poly)
    ensures Sq(Tail(e, 1)) == Poly(((e.c1 != e.c5) != e.c7), (e.c5 != e.c7), (e.c2 != e.c6), ((e.c5 != e.c6) != e.c7), (e.c3 != e.c5), (e.c6 != e.c7), (e.c4 != e.c6), e.c7)
  {
    SqTail2(e);
    TailStep1(e);
    SqFromTail(Tail(e, 1), Tail(e, 2), Poly((e.c2 != e.c6), e.c6, (e.c3 != e.c7), (e.c6 != e.c7), (e.c4 != e.c6), e.c7, (e.c5 != e.c7), false));
  }

  lemma TailStep0(e: Poly)
    ensures Div(Tail(e, 0)) == Tail(e, 1)
    ensures Add(Xtime(Xtime(Poly(((e.c1 != e.c5) != e.c7), (e.c5 != e.c7), (e.c2 != e.c6), ((e.c5 != e.c6) != e.c7), (e.c3 != e.c5), (e.c6 != e.c7), (e.c4 != e.c6), e.c7))), Scale(One, Tail(e, 0))) == Poly(((e.c0 != e.c4) != e.c6), ((e.c4 != e.c6) != e.c7), (e.c1 != e.c5), (((e.c4 != e.c5) != e.c6) != e.c7), ((e.c2 != e.c4) != e.c7), (e.c5 != e.c6), (e.c3 != e.c5), (e.c6 != e.c7))
  {}

  lemma SqTail0(e: Poly)
    ensures Sq(Tail(e, 0)) == Poly(((e.c0 != e.c4) != e.c6), ((e.c4 != e.c6) != e.c7), (e.c1 != e.c5), (((e.c4 != e.c5) != e.c6) != e.c7), ((e.c2 != e.c4) != e.c7), (e.c5 != e.c6), (e.c3 != e.c5), (e.c6 != e.c7))
  {
    SqTail1(e);
    TailStep0(e);
    SqFromTail(Tail(e, 0), Tail(e, 1), Poly(((e.c1 != e.c5) != e.c7), (e.c5 != e.c7), (e.c2 != e.c6), ((e.c5 != e.c6) != e.c7), (e.c3 != e.c5), (e.c6 != e.c7), (e.c4 != e.c6), e.c7));
  }

  /** The squaring map written out coefficient by coefficient. */
  function Frobenius(e: Poly): Poly {
    Poly(((e.c0 != e.c4) != e.c6), ((e.c4 != e.c6) != e.c7), (e.c1 != e.c5), (((e.c4 != e.c5) != e.c6) != e.c7), ((e.c2 != e.c4) != e.c7), (e.c5 != e.c6), (e.c3 != e.c5), (e.c6 != e.c7))
  }

  lemma SqLinear(e: Poly)
    ensures Sq(e) == Frobenius(e)
  {
    SqTail0(e);
  }

  /** 0 and 1 are the only idempotents of the field. */
  lemma Idempotents(e: Poly)
    requires Sq(e) == e
    ensures e == Zero || e == One
  {
    SqLinear(e);
  }

  /** The Frobenius map applied twice, coefficient by coefficient. */
  function Frobenius2(e: Poly): Poly {
    Poly((((((e.c0 != e.c2) != e.c3) != e.c5) != e.c6) != e.c7), ((((e.c2 != e.c3) != e.c4) != e.c5) != e.c6), ((e.c4 != e.c5) != e.c7), ((e.c2 != e.c3) != e.c4), ((((e.c1 != e.c2) != e.c4) != e.c5) != e.c6), (e.c3 != e.c6), (e.c4 != e.c7), (((e.c3 != e.c5) != e.c6) != e.c7))
  }

  /** The Frobenius map applied four times, coefficient by coefficient. */
  function Frobenius4(e: Poly): Poly {
    Poly((((e.c0 != e.c4) != e.c5) != e.c6), e.c1, ((((e.c1 != e.c2) != e.c4) != e.c6) != e.c7), ((((e.c1 != e.c3) != e.c4) != e.c6) != e.c7), ((e.c1 != e.c5) != e.c6), ((e.c2 != e.c3) != e.c7), ((((e.c1 != e.c2) != e.c3) != e.c4) != e.c7), ((e.c2 != e.c3) != e.c5))
  }

  lemma Frobenius2Def(e: Poly)
    ensures Frobenius(Frobenius(e)) == Frobenius2(e)
  {}

  lemma Frobenius4Def(e: Poly)
    ensures Frobenius2(Frobenius2(e)) == Frobenius4(e)
  {}

  lemma Frobenius8(e: Poly)
    ensures Frobenius4(Frobenius4(e)) == e
  {}

  /** Squaring eight times is the identity. */
  lemma SqEight(x: Poly)
    ensures Sq(Sq(Sq(Sq(Sq(Sq(Sq(Sq(x)))))))) == x
  {
    var y1 := Sq(x);
    var y2 := Sq(y1);
    var y3 := Sq(y2);
    var y4 := Sq(y3);
    var y5 := Sq(y4);
    var y6 := Sq(y5);
    var y7 := Sq(y6);
    SqLinear(x); SqLinear(y1); SqLinear(y2); SqLinear(y3);
    SqLinear(y4); SqLinear(y5); SqLinear(y6); SqLinear(y7);
    Frobenius2Def(x); Frobenius2Def(y2); Frobenius2Def(y4); Frobenius2Def(y6);
    Frobenius4Def(x); Frobenius4Def(y4);
    Frobenius8(x);
  }

  lemma PowDouble(x: Poly, n: nat)
    ensures Pow(x, 2 * n) == Sq(Pow(x, n))
  {
    PowAdd(x, n, n);
  }

  /** The number of nonzero field elements, the order of its multiplicative group. */
  const Order := 255

  /** x^256 == x for every field element x (Fermat's little theorem). */
  lemma Fermat(x: Poly)
    ensures Pow(x, 256) == x
  {
    PowOne(x);
    PowDouble(x, 1);
    PowDouble(x, 2);
    PowDouble(x, 4);
    PowDouble(x, 8);
    PowDouble(x, 16);
    PowDouble(x, 32);
    PowDouble(x, 64);
    PowDouble(x, 128);
    SqEight(x);
  }

  /** x * x^254 == 1 for every nonzero x: x^255 is an idempotent, and not 0. */
  lemma InverseRight(x: Poly)
    requires x != Zero
    ensures Mul(x, Pow(x, 254)) == One
  {
    var e := Mul(x, Pow(x, 254));
    PowOne(x);
    PowAdd(x, 1, 254);
    PowAdd(x, 255, 255);
    PowAdd(x, 256, 254);
    PowAdd(x, 255, 1);
    Fermat(x);
    MulZeroLeft(x);
    Idempotents(e);
  }

  lemma InverseOfZero()
    ensures Pow(Zero, 254) == Zero
  {
    PowZero(254);
  }

  /** Powers repeat with period 255 from the first power on. */
  lemma Period(x: Poly, n: nat)
    requires n >= 1
    ensures Pow(x, n + 255) == Pow(x, n)
  {
    PowAdd(x, n - 1, 256);
    Fermat(x);
  }

  lemma {:induction false} PowCycle(x: Poly, k: nat)
    ensures Pow(x, 1 + 255 * k) == x
  {
    if k == 0 {
      PowOne(x);
    } else {
      PowCycle(x, k - 1);
      Period(x, 1 + 255 * (k - 1));
    }
  }

  /** (x^254)^254 == x: the inverse of the inverse is the element itself. */
  lemma InverseInvolution(x: Poly)
    ensures Pow(Pow(x, Order - 1), Order - 1) == x
  {
    assert Order - 1 == 254;
    PowMul(x, 254, 254);
    PowCycle(x, 253);
  }
}
