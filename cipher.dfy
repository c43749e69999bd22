/**
 * The AES-128 cipher of section 5.1 of FIPS 197 on a 16-byte block, read
 * column by column: byte r + 4c is row r, column c of the state.  The S-box
 * comes from a table and the round keys from a 176-byte schedule, as
 * encrypt_message reads the global sbox and key_schedule arrays.
 */
module Cipher {
  import opened GaloisField
  import opened Bytes
  import opened RoundConstants
  import opened Rotations
  import opened KeyExpansion

  /** AddRoundKey (section 5.1.4): xor with bytes 16r..16r+15 of the schedule. */
  function AddRoundKey(s: Block, w: Schedule, r: nat): Block
    requires r <= 10
  {
    seq(16, n requires 0 <= n < 16 => s[n] ^ w[16 * r + n])
  }

  /** SubBytes (section 5.1.1): every byte looked up in the table. */
  function SubBytes(t: Table, s: Block): Block {
    seq(16, n requires 0 <= n < 16 => t[s[n]])
  }

  /** ShiftRows (section 5.1.2, equation 5.3): s'[r, c] = s[r, (c + r) mod 4]. */
  function ShiftRows(s: Block): Block {
    seq(16, n requires 0 <= n < 16 => s[n % 4 + 4 * ((n / 4 + n % 4) % 4)])
  }

  /** {03} * b, written with xtime as in section 4.2.1 of FIPS 197. */
  function Triple(b: bv8): bv8 {
    Double(b) ^ b
  }

  /**
   * Row 0 of the MixColumns matrix applied to (p, q, r, s): the matrix of
   * equation (5.6) of FIPS 197 is circulant, every row the one above moved
   * one place to the right, so row k applied to a column is MixRow of the
   * column rotated left by k.
   */
  function MixRow(p: bv8, q: bv8, r: bv8, s: bv8): bv8 {
    Double(p) ^ Triple(q) ^ r ^ s
  }

  /** MixRow from the products by {02} and {03}. */
  lemma MixRowOf(d: bv8, t: bv8, p: bv8, q: bv8, r: bv8, s: bv8)
    requires d == Double(p) && t == Triple(q)
    ensures d ^ t ^ r ^ s == MixRow(p, q, r, s)
  {}

  /** One column times the MixColumns matrix. */
  function MixColumn(a: Word): Word {
    [MixRow(a[0], a[1], a[2], a[3]), MixRow(a[1], a[2], a[3], a[0]),
     MixRow(a[2], a[3], a[0], a[1]), MixRow(a[3], a[0], a[1], a[2])]
  }

  /** Column c of a block: bytes 4c..4c+3. */
  function Column(s: Block, c: nat): Word
    requires c < 4
  {
    s[4 * c..4 * c + 4]
  }

  /** MixColumns (section 5.1.3): every column through MixColumn. */
  function MixColumns(s: Block): Block {
    seq(16, n requires 0 <= n < 16 => MixColumn(Column(s, n / 4))[n % 4])
  }

  /**
   * The state after round r, round 0 being the initial AddRoundKey; the
   * final round 10 leaves out MixColumns (Figure 5 of FIPS 197).
   */
  function State(t: Table, w: Schedule, input: Block, r: nat): Block
    requires r <= 10
  {
    if r == 0 then AddRoundKey(input, w, 0)
    else
      var s := ShiftRows(SubBytes(t, State(t, w, input, r - 1)));
      AddRoundKey(if r == 10 then s else MixColumns(s), w, r)
  }

  /** The ciphertext of a block. */
  function Encrypt(t: Table, w: Schedule, input: Block): Block {
    State(t, w, input, 10)
  }

  /**
   * ShiftRows leaves row 0 alone and moves the byte in row r, column c to
   * column (c - r) mod 4.
   */
  lemma ShiftRowsMoves(s: Block, r: nat, c: nat)
    requires r < 4 && c < 4
    ensures ShiftRows(s)[r + 4 * ((c + 4 - r) % 4)] == s[r + 4 * c]
    ensures r == 0 ==> ShiftRows(s)[4 * c] == s[4 * c]
  {
    var d := (c + 4 - r) % 4;
    DivMod4(d, r);
    assert (d + r) % 4 == c;
  }

  /** Doubling in the field is the xtime of section 4.2.1 of FIPS 197. */
  lemma GMulTwo(a: bv8)
    ensures GMul(2, a) == Double(a)
  {
    assert ToPoly(2) == Unit(1);
    MulComm(ToPoly(2), ToPoly(a));
    MulUnitPow(ToPoly(a), 1);
    DoubleXtime(a);
    FromToPoly(Double(a));
  }

  lemma GMulThree(a: bv8)
    ensures GMul(3, a) == Triple(a)
  {
    var p := ToPoly(a);
    TimesXPlusOne(p, ToPoly(3));
    TripleXtime(a);
    GMulComm(3, a);
    FromToPoly(Triple(a));
  }

  /** Multiplying by {03} is xtime plus the identity. */
  lemma TripleXtime(a: bv8)
    ensures ToPoly(Triple(a)) == Add(Xtime(ToPoly(a)), ToPoly(a))
  {
    XorStep(Triple(a), Double(a), a);
    DoubleXtime(a);
  }

  lemma XorStep(t: bv8, d: bv8, a: bv8)
    requires t == d ^ a
    ensures ToPoly(t) == Add(ToPoly(d), ToPoly(a))
  {
    XorPoly(d, a);
  }

  /** Multiplying by x + 1 ({03}) adds the xtime of p to p. */
  lemma TimesXPlusOne(p: Poly, t: Poly)
    requires t == Poly(true, true, false, false, false, false, false, false)
    ensures Mul(p, t) == Add(Xtime(p), p)
  {
    assert Div(t) == One;
    MulUnfold(p, t);
    MulOneRight(p);
  }

  /**
   * The MixColumns step of round 1 of Appendix B of FIPS 197, first column:
   * {d4 bf 5d 30} becomes {04 66 81 e5}.
   */
  lemma MixColumnExample()
    ensures MixColumn([0xd4, 0xbf, 0x5d, 0x30]) == [0x04, 0x66, 0x81, 0xe5]
  {}

  /** Row r of a block: the bytes r, r + 4, r + 8, r + 12. */
  function Row(s: Block, r: nat): Word
    requires r < 4
  {
    [s[r], s[r + 4], s[r + 8], s[r + 12]]
  }

  /** Two blocks with the same four rows are equal. */
  lemma RowsEqual(a: Block, b: Block)
    requires forall r | 0 <= r < 4 :: Row(a, r) == Row(b, r)
    ensures a == b
  {
    forall n | 0 <= n < 16
      ensures a[n] == b[n]
    {
      var r := n % 4;
      assert Row(a, r) == Row(b, r);
      assert n == r || n == r + 4 || n == r + 8 || n == r + 12;
    }
  }

  /** Writing a row changes that row and no other. */
  lemma RowUpdate(before: Block, after: Block, i: nat, row: Word)
    requires i < 4
    requires after == before[i := row[0]][i + 4 := row[1]][i + 8 := row[2]][i + 12 := row[3]]
    ensures Row(after, i) == row
    ensures forall r | 0 <= r < 4 && r != i :: Row(after, r) == Row(before, r)
  {}

  /**
   * Row r of ShiftRows(s) is row r of s rotated left by r bytes, which is how
   * encrypt_message computes it with lcs_4byte.
   */
  lemma ShiftRowsRow(s: Block, r: nat)
    requires r < 4
    ensures Row(ShiftRows(s), r) == RotateBytes(Row(s, r), r)
  {
    var row := RotateBytes(Row(s, r), r);
    forall c | 0 <= c < 4
      ensures ShiftRows(s)[r + 4 * c] == row[c]
    {
      RotateBytesAt(Row(s, r), r, c);
      DivMod4(c, r);
      assert Row(s, r)[(c + r) % 4] == s[r + 4 * ((c + r) % 4)];
    }
    assert r + 4 * 1 == r + 4 && r + 4 * 2 == r + 8 && r + 4 * 3 == r + 12;
  }

  /** Column c of MixColumns(s) is MixColumn of column c of s. */
  lemma MixColumnsColumn(s: Block, c: nat)
    requires c < 4
    ensures Column(MixColumns(s), c) == MixColumn(Column(s, c))
  {
    forall k | 0 <= k < 4
      ensures MixColumns(s)[4 * c + k] == MixColumn(Column(s, c))[k]
    {
      DivMod4(c, k);
    }
  }

  /** Two blocks with the same four columns are equal. */
  lemma ColumnsEqual(a: Block, b: Block)
    requires forall c | 0 <= c < 4 :: Column(a, c) == Column(b, c)
    ensures a == b
  {
    forall n | 0 <= n < 16
      ensures a[n] == b[n]
    {
      var c := n / 4;
      assert Column(a, c) == Column(b, c);
      assert a[n] == Column(a, c)[n - 4 * c];
    }
  }

  /** Writing a column changes that column and no other. */
  lemma ColumnUpdate(before: Block, after: Block, c: nat, col: Word)
    requires c < 4
    requires after == before[4 * c := col[0]][4 * c + 1 := col[1]][4 * c + 2 := col[2]][4 * c + 3 := col[3]]
    ensures Column(after, c) == col
    ensures forall d | 0 <= d < 4 && d != c :: Column(after, d) == Column(before, d)
  {}

  /** Equation (5.6) of FIPS 197, row by row. */
  lemma MixColumnEquation(a: Word)
    ensures MixColumn(a)[0] == Double(a[0]) ^ Triple(a[1]) ^ a[2] ^ a[3]
    ensures MixColumn(a)[1] == a[0] ^ Double(a[1]) ^ Triple(a[2]) ^ a[3]
    ensures MixColumn(a)[2] == a[0] ^ a[1] ^ Double(a[2]) ^ Triple(a[3])
    ensures MixColumn(a)[3] == Triple(a[0]) ^ a[1] ^ a[2] ^ Double(a[3])
  {
    XorRotate(Double(a[1]), Triple(a[2]), a[3], a[0]);
    XorRotate(Double(a[2]), Triple(a[3]), a[0], a[1]);
    XorRotate(Double(a[3]), Triple(a[0]), a[1], a[2]);
  }

  /** Xor is associative and commutative, so each row is a rotation of the first. */
  lemma XorRotate(d: bv8, t: bv8, r: bv8, s: bv8)
    ensures s ^ d ^ t ^ r == d ^ t ^ r ^ s
    ensures r ^ s ^ d ^ t == d ^ t ^ r ^ s
    ensures t ^ r ^ s ^ d == d ^ t ^ r ^ s
  {}

  /** AddRoundKey is its own inverse (section 5.3.4 of FIPS 197). */
  lemma AddRoundKeyInvolution(s: Block, w: Schedule, r: nat)
    requires r <= 10
    ensures AddRoundKey(AddRoundKey(s, w, r), w, r) == s
  {
    var once := AddRoundKey(s, w, r);
    forall n | 0 <= n < 16
      ensures once[n] ^ w[16 * r + n] == s[n]
    {
      XorCancel(s[n], w[16 * r + n]);
    }
  }

  lemma XorCancel(b: bv8, k: bv8)
    ensures b ^ k ^ k == b
  {}

  /** With an injective table SubBytes loses nothing. */
  lemma SubBytesInjective(t: Table, a: Block, b: Block)
    requires forall x: bv8, y: bv8 :: t[x] == t[y] ==> x == y
    requires SubBytes(t, a) == SubBytes(t, b)
    ensures a == b
  {
    forall n | 0 <= n < 16
      ensures a[n] == b[n]
    {
      assert SubBytes(t, a)[n] == SubBytes(t, b)[n];
    }
  }

  /** InvShiftRows (section 5.3.1 of FIPS 197): s'[r, (c + r) mod 4] = s[r, c]. */
  function InvShiftRows(s: Block): Block {
    seq(16, n requires 0 <= n < 16 => s[n % 4 + 4 * ((n / 4 + 4 - n % 4) % 4)])
  }

  /** InvShiftRows undoes ShiftRows. */
  lemma ShiftRowsRoundTrip(s: Block)
    ensures InvShiftRows(ShiftRows(s)) == s
  {
    forall n | 0 <= n < 16
      ensures InvShiftRows(ShiftRows(s))[n] == s[n]
    {
      ShiftRowsRoundTripAt(s, n);
    }
  }

  lemma ShiftRowsRoundTripAt(s: Block, n: int)
    requires 0 <= n < 16
    ensures InvShiftRows(ShiftRows(s))[n] == s[n]
  {
    var m := n % 4 + 4 * ((n / 4 + 4 - n % 4) % 4);
    ShiftOfInvIndex(n);
    var t := ShiftRows(s);
    assert InvShiftRows(t)[n] == t[m];
    assert t[m] == s[m % 4 + 4 * ((m / 4 + m % 4) % 4)];
  }

  /** ShiftRows undoes InvShiftRows, so ShiftRows is a permutation of the bytes. */
  lemma InvShiftRowsRoundTrip(s: Block)
    ensures ShiftRows(InvShiftRows(s)) == s
  {
    forall n | 0 <= n < 16
      ensures ShiftRows(InvShiftRows(s))[n] == s[n]
    {
      InvShiftRowsRoundTripAt(s, n);
    }
  }

  lemma InvShiftRowsRoundTripAt(s: Block, n: int)
    requires 0 <= n < 16
    ensures ShiftRows(InvShiftRows(s))[n] == s[n]
  {
    var m := n % 4 + 4 * ((n / 4 + n % 4) % 4);
    InvOfShiftIndex(n);
    var t := InvShiftRows(s);
    assert ShiftRows(t)[n] == t[m];
    assert t[m] == s[m % 4 + 4 * ((m / 4 + 4 - m % 4) % 4)];
  }

  /** The index InvShiftRows reads, mapped through the index ShiftRows reads, is n again. */
  lemma ShiftOfInvIndex(n: int)
    requires 0 <= n < 16
    ensures var m := n % 4 + 4 * ((n / 4 + 4 - n % 4) % 4);
      0 <= m < 16 && m % 4 + 4 * ((m / 4 + m % 4) % 4) == n
  {
    var r, c := n % 4, n / 4;
    assert n == 4 * c + r;
    var b := (c + 4 - r) % 4;
    Mod4Small(c + 4 - r);
    DivMod4(b, r);
    Mod4Small(b + r);
  }

  /** The index ShiftRows reads, mapped through the index InvShiftRows reads, is n again. */
  lemma InvOfShiftIndex(n: int)
    requires 0 <= n < 16
    ensures var m := n % 4 + 4 * ((n / 4 + n % 4) % 4);
      0 <= m < 16 && m % 4 + 4 * ((m / 4 + 4 - m % 4) % 4) == n
  {
    var r, c := n % 4, n / 4;
    assert n == 4 * c + r;
    var b := (c + r) % 4;
    Mod4Small(c + r);
    DivMod4(b, r);
    Mod4Small(b + 4 - r);
  }

  lemma Mod4Small(k: int)
    requires 0 <= k < 8
    ensures k % 4 == (if k < 4 then k else k - 4)
  {}
}
