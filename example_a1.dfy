/**
 * Appendix A.1 of FIPS 197: the expansion of the cipher key
 * 2b7e1516 28aed2a6 abf71588 09cf4f3c, word by word. Word i comes from the
 * values of words i - 1 and i - 4 (WordNext, a constant computation), and
 * the words are gathered four at a time, one round key per lemma.
 */
module ExampleA1 {
  import opened Bytes
  import opened Substitution
  import opened KeyExpansion
  import opened RoundConstants
  import opened KnownAnswers

  /** The cipher key of Appendix A.1. */
  const KeyA1: Block := [0x2b, 0x7e, 0x15, 0x16, 0x28, 0xae, 0xd2, 0xa6, 0xab, 0xf7, 0x15, 0x88, 0x09, 0xcf, 0x4f, 0x3c]

  /** The S-box entries and the round constant word 4 needs. */
  lemma WordLookups4(t: Table)
    requires forall b: bv8 :: t[b] == FipsSBox(b)
    ensures t[0x09] == 0x01
    ensures t[0xcf] == 0x8a
    ensures t[0x4f] == 0x84
    ensures t[0x3c] == 0xeb
    ensures RoundConstant(1) == 0x01
  {
    FipsAt(t, 0x09, 0x01);
    FipsAt(t, 0xcf, 0x8a);
    FipsAt(t, 0x4f, 0x84);
    FipsAt(t, 0x3c, 0xeb);
    RoundConstantValues();
  }

  /** NextKeyWord on the values of words 3 and 0. */
  lemma WordNext4(t: Table)
    requires t[0x09] == 0x01
    requires t[0xcf] == 0x8a
    requires t[0x4f] == 0x84
    requires t[0x3c] == 0xeb
    requires RoundConstant(1) == 0x01
    ensures NextKeyWord(t, 4, [0x09, 0xcf, 0x4f, 0x3c], [0x2b, 0x7e, 0x15, 0x16]) == [0xa0, 0xfa, 0xfe, 0x17]
  {}

  /** Word 4 of the expansion. */
  lemma Word4(t: Table)
    requires forall b: bv8 :: t[b] == FipsSBox(b)
    requires KeyWord(t, KeyA1, 3) == [0x09, 0xcf, 0x4f, 0x3c]
    requires KeyWord(t, KeyA1, 0) == [0x2b, 0x7e, 0x15, 0x16]
    ensures KeyWord(t, KeyA1, 4) == [0xa0, 0xfa, 0xfe, 0x17]
  {
    WordLookups4(t);
    WordNext4(t);
    KeyWordStep(t, KeyA1, 4, [0x09, 0xcf, 0x4f, 0x3c], [0x2b, 0x7e, 0x15, 0x16], [0xa0, 0xfa, 0xfe, 0x17]);
  }

  /** NextKeyWord on the values of words 4 and 1. */
  lemma WordNext5(t: Table)
    ensures NextKeyWord(t, 5, [0xa0, 0xfa, 0xfe, 0x17], [0x28, 0xae, 0xd2, 0xa6]) == [0x88, 0x54, 0x2c, 0xb1]
  {}

  /** Word 5 of the expansion. */
  lemma Word5(t: Table)
    requires KeyWord(t, KeyA1, 4) == [0xa0, 0xfa, 0xfe, 0x17]
    requires KeyWord(t, KeyA1, 1) == [0x28, 0xae, 0xd2, 0xa6]
    ensures KeyWord(t, KeyA1, 5) == [0x88, 0x54, 0x2c, 0xb1]
  {
    WordNext5(t);
    KeyWordStep(t, KeyA1, 5, [0xa0, 0xfa, 0xfe, 0x17], [0x28, 0xae, 0xd2, 0xa6], [0x88, 0x54, 0x2c, 0xb1]);
  }

  /** NextKeyWord on the values of words 5 and 2. */
  lemma WordNext6(t: Table)
    ensures NextKeyWord(t, 6, [0x88, 0x54, 0x2c, 0xb1], [0xab, 0xf7, 0x15, 0x88]) == [0x23, 0xa3, 0x39, 0x39]
  {}

  /** Word 6 of the expansion. */
  lemma Word6(t: Table)
    requires KeyWord(t, KeyA1, 5) == [0x88, 0x54, 0x2c, 0xb1]
    requires KeyWord(t, KeyA1, 2) == [0xab, 0xf7, 0x15, 0x88]
    ensures KeyWord(t, KeyA1, 6) == [0x23, 0xa3, 0x39, 0x39]
  {
    WordNext6(t);
    KeyWordStep(t, KeyA1, 6, [0x88, 0x54, 0x2c, 0xb1], [0xab, 0xf7, 0x15, 0x88], [0x23, 0xa3, 0x39, 0x39]);
  }

  /** NextKeyWord on the values of words 6 and 3. */
  lemma WordNext7(t: Table)
    ensures NextKeyWord(t, 7, [0x23, 0xa3, 0x39, 0x39], [0x09, 0xcf, 0x4f, 0x3c]) == [0x2a, 0x6c, 0x76, 0x05]
  {}

  /** Word 7 of the expansion. */
  lemma Word7(t: Table)
    requires KeyWord(t, KeyA1, 6) == [0x23, 0xa3, 0x39, 0x39]
    requires KeyWord(t, KeyA1, 3) == [0x09, 0xcf, 0x4f, 0x3c]
    ensures KeyWord(t, KeyA1, 7) == [0x2a, 0x6c, 0x76, 0x05]
  {
    WordNext7(t);
    KeyWordStep(t, KeyA1, 7, [0x23, 0xa3, 0x39, 0x39], [0x09, 0xcf, 0x4f, 0x3c], [0x2a, 0x6c, 0x76, 0x05]);
  }

  /** The S-box entries and the round constant word 8 needs. */
  lemma WordLookups8(t: Table)
    requires forall b: bv8 :: t[b] == FipsSBox(b)
    ensures t[0x2a] == 0xe5
    ensures t[0x6c] == 0x50
    ensures t[0x76] == 0x38
    ensures t[0x05] == 0x6b
    ensures RoundConstant(2) == 0x02
  {
    FipsAt(t, 0x2a, 0xe5);
    FipsAt(t, 0x6c, 0x50);
    FipsAt(t, 0x76, 0x38);
    FipsAt(t, 0x05, 0x6b);
    RoundConstantValues();
  }

  /** NextKeyWord on the values of words 7 and 4. */
  lemma WordNext8(t: Table)
    requires t[0x2a] == 0xe5
    requires t[0x6c] == 0x50
    requires t[0x76] == 0x38
    requires t[0x05] == 0x6b
    requires RoundConstant(2) == 0x02
    ensures NextKeyWord(t, 8, [0x2a, 0x6c, 0x76, 0x05], [0xa0, 0xfa, 0xfe, 0x17]) == [0xf2, 0xc2, 0x95, 0xf2]
  {}

  /** Word 8 of the expansion. */
  lemma Word8(t: Table)
    requires forall b: bv8 :: t[b] == FipsSBox(b)
    requires KeyWord(t, KeyA1, 7) == [0x2a, 0x6c, 0x76, 0x05]
    requires KeyWord(t, KeyA1, 4) == [0xa0, 0xfa, 0xfe, 0x17]
    ensures KeyWord(t, KeyA1, 8) == [0xf2, 0xc2, 0x95, 0xf2]
  {
    WordLookups8(t);
    WordNext8(t);
    KeyWordStep(t, KeyA1, 8, [0x2a, 0x6c, 0x76, 0x05], [0xa0, 0xfa, 0xfe, 0x17], [0xf2, 0xc2, 0x95, 0xf2]);
  }

  /** NextKeyWord on the values of words 8 and 5. */
  lemma WordNext9(t: Table)
    ensures NextKeyWord(t, 9, [0xf2, 0xc2, 0x95, 0xf2], [0x88, 0x54, 0x2c, 0xb1]) == [0x7a, 0x96, 0xb9, 0x43]
  {}

  /** Word 9 of the expansion. */
  lemma Word9(t: Table)
    requires KeyWord(t, KeyA1, 8) == [0xf2, 0xc2, 0x95, 0xf2]
    requires KeyWord(t, KeyA1, 5) == [0x88, 0x54, 0x2c, 0xb1]
    ensures KeyWord(t, KeyA1, 9) == [0x7a, 0x96, 0xb9, 0x43]
  {
    WordNext9(t);
    KeyWordStep(t, KeyA1, 9, [0xf2, 0xc2, 0x95, 0xf2], [0x88, 0x54, 0x2c, 0xb1], [0x7a, 0x96, 0xb9, 0x43]);
  }

  /** NextKeyWord on the values of words 9 and 6. */
  lemma WordNext10(t: Table)
    ensures NextKeyWord(t, 10, [0x7a, 0x96, 0xb9, 0x43], [0x23, 0xa3, 0x39, 0x39]) == [0x59, 0x35, 0x80, 0x7a]
  {}

  /** Word 10 of the expansion. */
  lemma Word10(t: Table)
    requires KeyWord(t, KeyA1, 9) == [0x7a, 0x96, 0xb9, 0x43]
    requires KeyWord(t, KeyA1, 6) == [0x23, 0xa3, 0x39, 0x39]
    ensures KeyWord(t, KeyA1, 10) == [0x59, 0x35, 0x80, 0x7a]
  {
    WordNext10(t);
    KeyWordStep(t, KeyA1, 10, [0x7a, 0x96, 0xb9, 0x43], [0x23, 0xa3, 0x39, 0x39], [0x59, 0x35, 0x80, 0x7a]);
  }

  /** NextKeyWord on the values of words 10 and 7. */
  lemma WordNext11(t: Table)
    ensures NextKeyWord(t, 11, [0x59, 0x35, 0x80, 0x7a], [0x2a, 0x6c, 0x76, 0x05]) == [0x73, 0x59, 0xf6, 0x7f]
  {}

  /** Word 11 of the expansion. */
  lemma Word11(t: Table)
    requires KeyWord(t, KeyA1, 10) == [0x59, 0x35, 0x80, 0x7a]
    requires KeyWord(t, KeyA1, 7) == [0x2a, 0x6c, 0x76, 0x05]
    ensures KeyWord(t, KeyA1, 11) == [0x73, 0x59, 0xf6, 0x7f]
  {
    WordNext11(t);
    KeyWordStep(t, KeyA1, 11, [0x59, 0x35, 0x80, 0x7a], [0x2a, 0x6c, 0x76, 0x05], [0x73, 0x59, 0xf6, 0x7f]);
  }

  /** The S-box entries and the round constant word 12 needs. */
  lemma WordLookups12(t: Table)
    requires forall b: bv8 :: t[b] == FipsSBox(b)
    ensures t[0x73] == 0x8f
    ensures t[0x59] == 0xcb
    ensures t[0xf6] == 0x42
    ensures t[0x7f] == 0xd2
    ensures RoundConstant(3) == 0x04
  {
    FipsAt(t, 0x73, 0x8f);
    FipsAt(t, 0x59, 0xcb);
    FipsAt(t, 0xf6, 0x42);
    FipsAt(t, 0x7f, 0xd2);
    RoundConstantValues();
  }

  /** NextKeyWord on the values of words 11 and 8. */
  lemma WordNext12(t: Table)
    requires t[0x73] == 0x8f
    requires t[0x59] == 0xcb
    requires t[0xf6] == 0x42
    requires t[0x7f] == 0xd2
    requires RoundConstant(3) == 0x04
    ensures NextKeyWord(t, 12, [0x73, 0x59, 0xf6, 0x7f], [0xf2, 0xc2, 0x95, 0xf2]) == [0x3d, 0x80, 0x47, 0x7d]
  {}

  /** Word 12 of the expansion. */
  lemma Word12(t: Table)
    requires forall b: bv8 :: t[b] == FipsSBox(b)
    requires KeyWord(t, KeyA1, 11) == [0x73, 0x59, 0xf6, 0x7f]
    requires KeyWord(t, KeyA1, 8) == [0xf2, 0xc2, 0x95, 0xf2]
    ensures KeyWord(t, KeyA1, 12) == [0x3d, 0x80, 0x47, 0x7d]
  {
    WordLookups12(t);
    WordNext12(t);
    KeyWordStep(t, KeyA1, 12, [0x73, 0x59, 0xf6, 0x7f], [0xf2, 0xc2, 0x95, 0xf2], [0x3d, 0x80, 0x47, 0x7d]);
  }

  /** NextKeyWord on the values of words 12 and 9. */
  lemma WordNext13(t: Table)
    ensures NextKeyWord(t, 13, [0x3d, 0x80, 0x47, 0x7d], [0x7a, 0x96, 0xb9, 0x43]) == [0x47, 0x16, 0xfe, 0x3e]
  {}

  /** Word 13 of the expansion. */
  lemma Word13(t: Table)
    requires KeyWord(t, KeyA1, 12) == [0x3d, 0x80, 0x47, 0x7d]
    requires KeyWord(t, KeyA1, 9) == [0x7a, 0x96, 0xb9, 0x43]
    ensures KeyWord(t, KeyA1, 13) == [0x47, 0x16, 0xfe, 0x3e]
  {
    WordNext13(t);
    KeyWordStep(t, KeyA1, 13, [0x3d, 0x80, 0x47, 0x7d], [0x7a, 0x96, 0xb9, 0x43], [0x47, 0x16, 0xfe, 0x3e]);
  }

  /** NextKeyWord on the values of words 13 and 10. */
  lemma WordNext14(t: Table)
    ensures NextKeyWord(t, 14, [0x47, 0x16, 0xfe, 0x3e], [0x59, 0x35, 0x80, 0x7a]) == [0x1e, 0x23, 0x7e, 0x44]
  {}

  /** Word 14 of the expansion. */
  lemma Word14(t: Table)
    requires KeyWord(t, KeyA1, 13) == [0x47, 0x16, 0xfe, 0x3e]
    requires KeyWord(t, KeyA1, 10) == [0x59, 0x35, 0x80, 0x7a]
    ensures KeyWord(t, KeyA1, 14) == [0x1e, 0x23, 0x7e, 0x44]
  {
    WordNext14(t);
    KeyWordStep(t, KeyA1, 14, [0x47, 0x16, 0xfe, 0x3e], [0x59, 0x35, 0x80, 0x7a], [0x1e, 0x23, 0x7e, 0x44]);
  }

  /** NextKeyWord on the values of words 14 and 11. */
  lemma WordNext15(t: Table)
    ensures NextKeyWord(t, 15, [0x1e, 0x23, 0x7e, 0x44], [0x73, 0x59, 0xf6, 0x7f]) == [0x6d, 0x7a, 0x88, 0x3b]
  {}

  /** Word 15 of the expansion. */
  lemma Word15(t: Table)
    requires KeyWord(t, KeyA1, 14) == [0x1e, 0x23, 0x7e, 0x44]
    requires KeyWord(t, KeyA1, 11) == [0x73, 0x59, 0xf6, 0x7f]
    ensures KeyWord(t, KeyA1, 15) == [0x6d, 0x7a, 0x88, 0x3b]
  {
    WordNext15(t);
    KeyWordStep(t, KeyA1, 15, [0x1e, 0x23, 0x7e, 0x44], [0x73, 0x59, 0xf6, 0x7f], [0x6d, 0x7a, 0x88, 0x3b]);
  }

  /** The S-box entries and the round constant word 16 needs. */
  lemma WordLookups16(t: Table)
    requires forall b: bv8 :: t[b] == FipsSBox(b)
    ensures t[0x6d] == 0x3c
    ensures t[0x7a] == 0xda
    ensures t[0x88] == 0xc4
    ensures t[0x3b] == 0xe2
    ensures RoundConstant(4) == 0x08
  {
    FipsAt(t, 0x6d, 0x3c);
    FipsAt(t, 0x7a, 0xda);
    FipsAt(t, 0x88, 0xc4);
    FipsAt(t, 0x3b, 0xe2);
    RoundConstantValues();
  }

  /** NextKeyWord on the values of words 15 and 12. */
  lemma WordNext16(t: Table)
    requires t[0x6d] == 0x3c
    requires t[0x7a] == 0xda
    requires t[0x88] == 0xc4
    requires t[0x3b] == 0xe2
    requires RoundConstant(4) == 0x08
    ensures NextKeyWord(t, 16, [0x6d, 0x7a, 0x88, 0x3b], [0x3d, 0x80, 0x47, 0x7d]) == [0xef, 0x44, 0xa5, 0x41]
  {}

  /** Word 16 of the expansion. */
  lemma Word16(t: Table)
    requires forall b: bv8 :: t[b] == FipsSBox(b)
    requires KeyWord(t, KeyA1, 15) == [0x6d, 0x7a, 0x88, 0x3b]
    requires KeyWord(t, KeyA1, 12) == [0x3d, 0x80, 0x47, 0x7d]
    ensures KeyWord(t, KeyA1, 16) == [0xef, 0x44, 0xa5, 0x41]
  {
    WordLookups16(t);
    WordNext16(t);
    KeyWordStep(t, KeyA1, 16, [0x6d, 0x7a, 0x88, 0x3b], [0x3d, 0x80, 0x47, 0x7d], [0xef, 0x44, 0xa5, 0x41]);
  }

  /** NextKeyWord on the values of words 16 and 13. */
  lemma WordNext17(t: Table)
    ensures NextKeyWord(t, 17, [0xef, 0x44, 0xa5, 0x41], [0x47, 0x16, 0xfe, 0x3e]) == [0xa8, 0x52, 0x5b, 0x7f]
  {}

  /** Word 17 of the expansion. */
  lemma Word17(t: Table)
    requires KeyWord(t, KeyA1, 16) == [0xef, 0x44, 0xa5, 0x41]
    requires KeyWord(t, KeyA1, 13) == [0x47, 0x16, 0xfe, 0x3e]
    ensures KeyWord(t, KeyA1, 17) == [0xa8, 0x52, 0x5b, 0x7f]
  {
    WordNext17(t);
    KeyWordStep(t, KeyA1, 17, [0xef, 0x44, 0xa5, 0x41], [0x47, 0x16, 0xfe, 0x3e], [0xa8, 0x52, 0x5b, 0x7f]);
  }

  /** NextKeyWord on the values of words 17 and 14. */
  lemma WordNext18(t: Table)
    ensures NextKeyWord(t, 18, [0xa8, 0x52, 0x5b, 0x7f], [0x1e, 0x23, 0x7e, 0x44]) == [0xb6, 0x71, 0x25, 0x3b]
  {}

  /** Word 18 of the expansion. */
  lemma Word18(t: Table)
    requires KeyWord(t, KeyA1, 17) == [0xa8, 0x52, 0x5b, 0x7f]
    requires KeyWord(t, KeyA1, 14) == [0x1e, 0x23, 0x7e, 0x44]
    ensures KeyWord(t, KeyA1, 18) == [0xb6, 0x71, 0x25, 0x3b]
  {
    WordNext18(t);
    KeyWordStep(t, KeyA1, 18, [0xa8, 0x52, 0x5b, 0x7f], [0x1e, 0x23, 0x7e, 0x44], [0xb6, 0x71, 0x25, 0x3b]);
  }

  /** NextKeyWord on the values of words 18 and 15. */
  lemma WordNext19(t: Table)
    ensures NextKeyWord(t, 19, [0xb6, 0x71, 0x25, 0x3b], [0x6d, 0x7a, 0x88, 0x3b]) == [0xdb, 0x0b, 0xad, 0x00]
  {}

  /** Word 19 of the expansion. */
  lemma Word19(t: Table)
    requires KeyWord(t, KeyA1, 18) == [0xb6, 0x71, 0x25, 0x3b]
    requires KeyWord(t, KeyA1, 15) == [0x6d, 0x7a, 0x88, 0x3b]
    ensures KeyWord(t, KeyA1, 19) == [0xdb, 0x0b, 0xad, 0x00]
  {
    WordNext19(t);
    KeyWordStep(t, KeyA1, 19, [0xb6, 0x71, 0x25, 0x3b], [0x6d, 0x7a, 0x88, 0x3b], [0xdb, 0x0b, 0xad, 0x00]);
  }

  /** The S-box entries and the round constant word 20 needs. */
  lemma WordLookups20(t: Table)
    requires forall b: bv8 :: t[b] == FipsSBox(b)
    ensures t[0xdb] == 0xb9
    ensures t[0x0b] == 0x2b
    ensures t[0xad] == 0x95
    ensures t[0x00] == 0x63
    ensures RoundConstant(5) == 0x10
  {
    FipsAt(t, 0xdb, 0xb9);
    FipsAt(t, 0x0b, 0x2b);
    FipsAt(t, 0xad, 0x95);
    FipsAt(t, 0x00, 0x63);
    RoundConstantValues();
  }

  /** NextKeyWord on the values of words 19 and 16. */
  lemma WordNext20(t: Table)
    requires t[0xdb] == 0xb9
    requires t[0x0b] == 0x2b
    requires t[0xad] == 0x95
    requires t[0x00] == 0x63
    requires RoundConstant(5) == 0x10
    ensures NextKeyWord(t, 20, [0xdb, 0x0b, 0xad, 0x00], [0xef, 0x44, 0xa5, 0x41]) == [0xd4, 0xd1, 0xc6, 0xf8]
  {}

  /** Word 20 of the expansion. */
  lemma Word20(t: Table)
    requires forall b: bv8 :: t[b] == FipsSBox(b)
    requires KeyWord(t, KeyA1, 19) == [0xdb, 0x0b, 0xad, 0x00]
    requires KeyWord(t, KeyA1, 16) == [0xef, 0x44, 0xa5, 0x41]
    ensures KeyWord(t, KeyA1, 20) == [0xd4, 0xd1, 0xc6, 0xf8]
  {
    WordLookups20(t);
    WordNext20(t);
    KeyWordStep(t, KeyA1, 20, [0xdb, 0x0b, 0xad, 0x00], [0xef, 0x44, 0xa5, 0x41], [0xd4, 0xd1, 0xc6, 0xf8]);
  }

  /** NextKeyWord on the values of words 20 and 17. */
  lemma WordNext21(t: Table)
    ensures NextKeyWord(t, 21, [0xd4, 0xd1, 0xc6, 0xf8], [0xa8, 0x52, 0x5b, 0x7f]) == [0x7c, 0x83, 0x9d, 0x87]
  {}

  /** Word 21 of the expansion. */
  lemma Word21(t: Table)
    requires KeyWord(t, KeyA1, 20) == [0xd4, 0xd1, 0xc6, 0xf8]
    requires KeyWord(t, KeyA1, 17) == [0xa8, 0x52, 0x5b, 0x7f]
    ensures KeyWord(t, KeyA1, 21) == [0x7c, 0x83, 0x9d, 0x87]
  {
    WordNext21(t);
    KeyWordStep(t, KeyA1, 21, [0xd4, 0xd1, 0xc6, 0xf8], [0xa8, 0x52, 0x5b, 0x7f], [0x7c, 0x83, 0x9d, 0x87]);
  }

  /** NextKeyWord on the values of words 21 and 18. */
  lemma WordNext22(t: Table)
    ensures NextKeyWord(t, 22, [0x7c, 0x83, 0x9d, 0x87], [0xb6, 0x71, 0x25, 0x3b]) == [0xca, 0xf2, 0xb8, 0xbc]
  {}

  /** Word 22 of the expansion. */
  lemma Word22(t: Table)
    requires KeyWord(t, KeyA1, 21) == [0x7c, 0x83, 0x9d, 0x87]
    requires KeyWord(t, KeyA1, 18) == [0xb6, 0x71, 0x25, 0x3b]
    ensures KeyWord(t, KeyA1, 22) == [0xca, 0xf2, 0xb8, 0xbc]
  {
    WordNext22(t);
    KeyWordStep(t, KeyA1, 22, [0x7c, 0x83, 0x9d, 0x87], [0xb6, 0x71, 0x25, 0x3b], [0xca, 0xf2, 0xb8, 0xbc]);
  }

  /** NextKeyWord on the values of words 22 and 19. */
  lemma WordNext23(t: Table)
    ensures NextKeyWord(t, 23, [0xca, 0xf2, 0xb8, 0xbc], [0xdb, 0x0b, 0xad, 0x00]) == [0x11, 0xf9, 0x15, 0xbc]
  {}

  /** Word 23 of the expansion. */
  lemma Word23(t: Table)
    requires KeyWord(t, KeyA1, 22) == [0xca, 0xf2, 0xb8, 0xbc]
    requires KeyWord(t, KeyA1, 19) == [0xdb, 0x0b, 0xad, 0x00]
    ensures KeyWord(t, KeyA1, 23) == [0x11, 0xf9, 0x15, 0xbc]
  {
    WordNext23(t);
    KeyWordStep(t, KeyA1, 23, [0xca, 0xf2, 0xb8, 0xbc], [0xdb, 0x0b, 0xad, 0x00], [0x11, 0xf9, 0x15, 0xbc]);
  }

  /** The S-box entries and the round constant word 24 needs. */
  lemma WordLookups24(t: Table)
    requires forall b: bv8 :: t[b] == FipsSBox(b)
    ensures t[0x11] == 0x82
    ensures t[0xf9] == 0x99
    ensures t[0x15] == 0x59
    ensures t[0xbc] == 0x65
    ensures RoundConstant(6) == 0x20
  {
    FipsAt(t, 0x11, 0x82);
    FipsAt(t, 0xf9, 0x99);
    FipsAt(t, 0x15, 0x59);
    FipsAt(t, 0xbc, 0x65);
    RoundConstantValues();
  }

  /** NextKeyWord on the values of words 23 and 20. */
  lemma WordNext24(t: Table)
    requires t[0x11] == 0x82
    requires t[0xf9] == 0x99
    requires t[0x15] == 0x59
    requires t[0xbc] == 0x65
    requires RoundConstant(6) == 0x20
    ensures NextKeyWord(t, 24, [0x11, 0xf9, 0x15, 0xbc], [0xd4, 0xd1, 0xc6, 0xf8]) == [0x6d, 0x88, 0xa3, 0x7a]
  {}

  /** Word 24 of the expansion. */
  lemma Word24(t: Table)
    requires forall b: bv8 :: t[b] == FipsSBox(b)
    requires KeyWord(t, KeyA1, 23) == [0x11, 0xf9, 0x15, 0xbc]
    requires KeyWord(t, KeyA1, 20) == [0xd4, 0xd1, 0xc6, 0xf8]
    ensures KeyWord(t, KeyA1, 24) == [0x6d, 0x88, 0xa3, 0x7a]
  {
    WordLookups24(t);
    WordNext24(t);
    KeyWordStep(t, KeyA1, 24, [0x11, 0xf9, 0x15, 0xbc], [0xd4, 0xd1, 0xc6, 0xf8], [0x6d, 0x88, 0xa3, 0x7a]);
  }

  /** NextKeyWord on the values of words 24 and 21. */
  lemma WordNext25(t: Table)
    ensures NextKeyWord(t, 25, [0x6d, 0x88, 0xa3, 0x7a], [0x7c, 0x83, 0x9d, 0x87]) == [0x11, 0x0b, 0x3e, 0xfd]
  {}

  /** Word 25 of the expansion. */
  lemma Word25(t: Table)
    requires KeyWord(t, KeyA1, 24) == [0x6d, 0x88, 0xa3, 0x7a]
    requires KeyWord(t, KeyA1, 21) == [0x7c, 0x83, 0x9d, 0x87]
    ensures KeyWord(t, KeyA1, 25) == [0x11, 0x0b, 0x3e, 0xfd]
  {
    WordNext25(t);
    KeyWordStep(t, KeyA1, 25, [0x6d, 0x88, 0xa3, 0x7a], [0x7c, 0x83, 0x9d, 0x87], [0x11, 0x0b, 0x3e, 0xfd]);
  }

  /** NextKeyWord on the values of words 25 and 22. */
  lemma WordNext26(t: Table)
    ensures NextKeyWord(t, 26, [0x11, 0x0b, 0x3e, 0xfd], [0xca, 0xf2, 0xb8, 0xbc]) == [0xdb, 0xf9, 0x86, 0x41]
  {}

  /** Word 26 of the expansion. */
  lemma Word26(t: Table)
    requires KeyWord(t, KeyA1, 25) == [0x11, 0x0b, 0x3e, 0xfd]
    requires KeyWord(t, KeyA1, 22) == [0xca, 0xf2, 0xb8, 0xbc]
    ensures KeyWord(t, KeyA1, 26) == [0xdb, 0xf9, 0x86, 0x41]
  {
    WordNext26(t);
    KeyWordStep(t, KeyA1, 26, [0x11, 0x0b, 0x3e, 0xfd], [0xca, 0xf2, 0xb8, 0xbc], [0xdb, 0xf9, 0x86, 0x41]);
  }

  /** NextKeyWord on the values of words 26 and 23. */
  lemma WordNext27(t: Table)
    ensures NextKeyWord(t, 27, [0xdb, 0xf9, 0x86, 0x41], [0x11, 0xf9, 0x15, 0xbc]) == [0xca, 0x00, 0x93, 0xfd]
  {}

  /** Word 27 of the expansion. */
  lemma Word27(t: Table)
    requires KeyWord(t, KeyA1, 26) == [0xdb, 0xf9, 0x86, 0x41]
    requires KeyWord(t, KeyA1, 23) == [0x11, 0xf9, 0x15, 0xbc]
    ensures KeyWord(t, KeyA1, 27) == [0xca, 0x00, 0x93, 0xfd]
  {
    WordNext27(t);
    KeyWordStep(t, KeyA1, 27, [0xdb, 0xf9, 0x86, 0x41], [0x11, 0xf9, 0x15, 0xbc], [0xca, 0x00, 0x93, 0xfd]);
  }

  /** The S-box entries and the round constant word 28 needs. */
  lemma WordLookups28(t: Table)
    requires forall b: bv8 :: t[b] == FipsSBox(b)
    ensures t[0xca] == 0x74
    ensures t[0x00] == 0x63
    ensures t[0x93] == 0xdc
    ensures t[0xfd] == 0x54
    ensures RoundConstant(7) == 0x40
  {
    FipsAt(t, 0xca, 0x74);
    FipsAt(t, 0x00, 0x63);
    FipsAt(t, 0x93, 0xdc);
    FipsAt(t, 0xfd, 0x54);
    RoundConstantValues();
  }

  /** NextKeyWord on the values of words 27 and 24. */
  lemma WordNext28(t: Table)
    requires t[0xca] == 0x74
    requires t[0x00] == 0x63
    requires t[0x93] == 0xdc
    requires t[0xfd] == 0x54
    requires RoundConstant(7) == 0x40
    ensures NextKeyWord(t, 28, [0xca, 0x00, 0x93, 0xfd], [0x6d, 0x88, 0xa3, 0x7a]) == [0x4e, 0x54, 0xf7, 0x0e]
  {}

  /** Word 28 of the expansion. */
  lemma Word28(t: Table)
    requires forall b: bv8 :: t[b] == FipsSBox(b)
    requires KeyWord(t, KeyA1, 27) == [0xca, 0x00, 0x93, 0xfd]
    requires KeyWord(t, KeyA1, 24) == [0x6d, 0x88, 0xa3, 0x7a]
    ensures KeyWord(t, KeyA1, 28) == [0x4e, 0x54, 0xf7, 0x0e]
  {
    WordLookups28(t);
    WordNext28(t);
    KeyWordStep(t, KeyA1, 28, [0xca, 0x00, 0x93, 0xfd], [0x6d, 0x88, 0xa3, 0x7a], [0x4e, 0x54, 0xf7, 0x0e]);
  }

  /** NextKeyWord on the values of words 28 and 25. */
  lemma WordNext29(t: Table)
    ensures NextKeyWord(t, 29, [0x4e, 0x54, 0xf7, 0x0e], [0x11, 0x0b, 0x3e, 0xfd]) == [0x5f, 0x5f, 0xc9, 0xf3]
  {}

  /** Word 29 of the expansion. */
  lemma Word29(t: Table)
    requires KeyWord(t, KeyA1, 28) == [0x4e, 0x54, 0xf7, 0x0e]
    requires KeyWord(t, KeyA1, 25) == [0x11, 0x0b, 0x3e, 0xfd]
    ensures KeyWord(t, KeyA1, 29) == [0x5f, 0x5f, 0xc9, 0xf3]
  {
    WordNext29(t);
    KeyWordStep(t, KeyA1, 29, [0x4e, 0x54, 0xf7, 0x0e], [0x11, 0x0b, 0x3e, 0xfd], [0x5f, 0x5f, 0xc9, 0xf3]);
  }

  /** NextKeyWord on the values of words 29 and 26. */
  lemma WordNext30(t: Table)
    ensures NextKeyWord(t, 30, [0x5f, 0x5f, 0xc9, 0xf3], [0xdb, 0xf9, 0x86, 0x41]) == [0x84, 0xa6, 0x4f, 0xb2]
  {}

  /** Word 30 of the expansion. */
  lemma Word30(t: Table)
    requires KeyWord(t, KeyA1, 29) == [0x5f, 0x5f, 0xc9, 0xf3]
    requires KeyWord(t, KeyA1, 26) == [0xdb, 0xf9, 0x86, 0x41]
    ensures KeyWord(t, KeyA1, 30) == [0x84, 0xa6, 0x4f, 0xb2]
  {
    WordNext30(t);
    KeyWordStep(t, KeyA1, 30, [0x5f, 0x5f, 0xc9, 0xf3], [0xdb, 0xf9, 0x86, 0x41], [0x84, 0xa6, 0x4f, 0xb2]);
  }

  /** NextKeyWord on the values of words 30 and 27. */
  lemma WordNext31(t: Table)
    ensures NextKeyWord(t, 31, [0x84, 0xa6, 0x4f, 0xb2], [0xca, 0x00, 0x93, 0xfd]) == [0x4e, 0xa6, 0xdc, 0x4f]
  {}

  /** Word 31 of the expansion. */
  lemma Word31(t: Table)
    requires KeyWord(t, KeyA1, 30) == [0x84, 0xa6, 0x4f, 0xb2]
    requires KeyWord(t, KeyA1, 27) == [0xca, 0x00, 0x93, 0xfd]
    ensures KeyWord(t, KeyA1, 31) == [0x4e, 0xa6, 0xdc, 0x4f]
  {
    WordNext31(t);
    KeyWordStep(t, KeyA1, 31, [0x84, 0xa6, 0x4f, 0xb2], [0xca, 0x00, 0x93, 0xfd], [0x4e, 0xa6, 0xdc, 0x4f]);
  }

  /** The S-box entries and the round constant word 32 needs. */
  lemma WordLookups32(t: Table)
    requires forall b: bv8 :: t[b] == FipsSBox(b)
    ensures t[0x4e] == 0x2f
    ensures t[0xa6] == 0x24
    ensures t[0xdc] == 0x86
    ensures t[0x4f] == 0x84
    ensures RoundConstant(8) == 0x80
  {
    FipsAt(t, 0x4e, 0x2f);
    FipsAt(t, 0xa6, 0x24);
    FipsAt(t, 0xdc, 0x86);
    FipsAt(t, 0x4f, 0x84);
    RoundConstantValues();
  }

  /** NextKeyWord on the values of words 31 and 28. */
  lemma WordNext32(t: Table)
    requires t[0x4e] == 0x2f
    requires t[0xa6] == 0x24
    requires t[0xdc] == 0x86
    requires t[0x4f] == 0x84
    requires RoundConstant(8) == 0x80
    ensures NextKeyWord(t, 32, [0x4e, 0xa6, 0xdc, 0x4f], [0x4e, 0x54, 0xf7, 0x0e]) == [0xea, 0xd2, 0x73, 0x21]
  {}

  /** Word 32 of the expansion. */
  lemma Word32(t: Table)
    requires forall b: bv8 :: t[b] == FipsSBox(b)
    requires KeyWord(t, KeyA1, 31) == [0x4e, 0xa6, 0xdc, 0x4f]
    requires KeyWord(t, KeyA1, 28) == [0x4e, 0x54, 0xf7, 0x0e]
    ensures KeyWord(t, KeyA1, 32) == [0xea, 0xd2, 0x73, 0x21]
  {
    WordLookups32(t);
    WordNext32(t);
    KeyWordStep(t, KeyA1, 32, [0x4e, 0xa6, 0xdc, 0x4f], [0x4e, 0x54, 0xf7, 0x0e], [0xea, 0xd2, 0x73, 0x21]);
  }

  /** NextKeyWord on the values of words 32 and 29. */
  lemma WordNext33(t: Table)
    ensures NextKeyWord(t, 33, [0xea, 0xd2, 0x73, 0x21], [0x5f, 0x5f, 0xc9, 0xf3]) == [0xb5, 0x8d, 0xba, 0xd2]
  {}

  /** Word 33 of the expansion. */
  lemma Word33(t: Table)
    requires KeyWord(t, KeyA1, 32) == [0xea, 0xd2, 0x73, 0x21]
    requires KeyWord(t, KeyA1, 29) == [0x5f, 0x5f, 0xc9, 0xf3]
    ensures KeyWord(t, KeyA1, 33) == [0xb5, 0x8d, 0xba, 0xd2]
  {
    WordNext33(t);
    KeyWordStep(t, KeyA1, 33, [0xea, 0xd2, 0x73, 0x21], [0x5f, 0x5f, 0xc9, 0xf3], [0xb5, 0x8d, 0xba, 0xd2]);
  }

  /** NextKeyWord on the values of words 33 and 30. */
  lemma WordNext34(t: Table)
    ensures NextKeyWord(t, 34, [0xb5, 0x8d, 0xba, 0xd2], [0x84, 0xa6, 0x4f, 0xb2]) == [0x31, 0x2b, 0xf5, 0x60]
  {}

  /** Word 34 of the expansion. */
  lemma Word34(t: Table)
    requires KeyWord(t, KeyA1, 33) == [0xb5, 0x8d, 0xba, 0xd2]
    requires KeyWord(t, KeyA1, 30) == [0x84, 0xa6, 0x4f, 0xb2]
    ensures KeyWord(t, KeyA1, 34) == [0x31, 0x2b, 0xf5, 0x60]
  {
    WordNext34(t);
    KeyWordStep(t, KeyA1, 34, [0xb5, 0x8d, 0xba, 0xd2], [0x84, 0xa6, 0x4f, 0xb2], [0x31, 0x2b, 0xf5, 0x60]);
  }

  /** NextKeyWord on the values of words 34 and 31. */
  lemma WordNext35(t: Table)
    ensures NextKeyWord(t, 35, [0x31, 0x2b, 0xf5, 0x60], [0x4e, 0xa6, 0xdc, 0x4f]) == [0x7f, 0x8d, 0x29, 0x2f]
  {}

  /** Word 35 of the expansion. */
  lemma Word35(t: Table)
    requires KeyWord(t, KeyA1, 34) == [0x31, 0x2b, 0xf5, 0x60]
    requires KeyWord(t, KeyA1, 31) == [0x4e, 0xa6, 0xdc, 0x4f]
    ensures KeyWord(t, KeyA1, 35) == [0x7f, 0x8d, 0x29, 0x2f]
  {
    WordNext35(t);
    KeyWordStep(t, KeyA1, 35, [0x31, 0x2b, 0xf5, 0x60], [0x4e, 0xa6, 0xdc, 0x4f], [0x7f, 0x8d, 0x29, 0x2f]);
  }

  /** The S-box entries and the round constant word 36 needs. */
  lemma WordLookups36(t: Table)
    requires forall b: bv8 :: t[b] == FipsSBox(b)
    ensures t[0x7f] == 0xd2
    ensures t[0x8d] == 0x5d
    ensures t[0x29] == 0xa5
    ensures t[0x2f] == 0x15
    ensures RoundConstant(9) == 0x1b
  {
    FipsAt(t, 0x7f, 0xd2);
    FipsAt(t, 0x8d, 0x5d);
    FipsAt(t, 0x29, 0xa5);
    FipsAt(t, 0x2f, 0x15);
    RoundConstantValues();
  }

  /** NextKeyWord on the values of words 35 and 32. */
  lemma WordNext36(t: Table)
    requires t[0x7f] == 0xd2
    requires t[0x8d] == 0x5d
    requires t[0x29] == 0xa5
    requires t[0x2f] == 0x15
    requires RoundConstant(9) == 0x1b
    ensures NextKeyWord(t, 36, [0x7f, 0x8d, 0x29, 0x2f], [0xea, 0xd2, 0x73, 0x21]) == [0xac, 0x77, 0x66, 0xf3]
  {}

  /** Word 36 of the expansion. */
  lemma Word36(t: Table)
    requires forall b: bv8 :: t[b] == FipsSBox(b)
    requires KeyWord(t, KeyA1, 35) == [0x7f, 0x8d, 0x29, 0x2f]
    requires KeyWord(t, KeyA1, 32) == [0xea, 0xd2, 0x73, 0x21]
    ensures KeyWord(t, KeyA1, 36) == [0xac, 0x77, 0x66, 0xf3]
  {
    WordLookups36(t);
    WordNext36(t);
    KeyWordStep(t, KeyA1, 36, [0x7f, 0x8d, 0x29, 0x2f], [0xea, 0xd2, 0x73, 0x21], [0xac, 0x77, 0x66, 0xf3]);
  }

  /** NextKeyWord on the values of words 36 and 33. */
  lemma WordNext37(t: Table)
    ensures NextKeyWord(t, 37, [0xac, 0x77, 0x66, 0xf3], [0xb5, 0x8d, 0xba, 0xd2]) == [0x19, 0xfa, 0xdc, 0x21]
  {}

  /** Word 37 of the expansion. */
  lemma Word37(t: Table)
    requires KeyWord(t, KeyA1, 36) == [0xac, 0x77, 0x66, 0xf3]
    requires KeyWord(t, KeyA1, 33) == [0xb5, 0x8d, 0xba, 0xd2]
    ensures KeyWord(t, KeyA1, 37) == [0x19, 0xfa, 0xdc, 0x21]
  {
    WordNext37(t);
    KeyWordStep(t, KeyA1, 37, [0xac, 0x77, 0x66, 0xf3], [0xb5, 0x8d, 0xba, 0xd2], [0x19, 0xfa, 0xdc, 0x21]);
  }

  /** NextKeyWord on the values of words 37 and 34. */
  lemma WordNext38(t: Table)
    ensures NextKeyWord(t, 38, [0x19, 0xfa, 0xdc, 0x21], [0x31, 0x2b, 0xf5, 0x60]) == [0x28, 0xd1, 0x29, 0x41]
  {}

  /** Word 38 of the expansion. */
  lemma Word38(t: Table)
    requires KeyWord(t, KeyA1, 37) == [0x19, 0xfa, 0xdc, 0x21]
    requires KeyWord(t, KeyA1, 34) == [0x31, 0x2b, 0xf5, 0x60]
    ensures KeyWord(t, KeyA1, 38) == [0x28, 0xd1, 0x29, 0x41]
  {
    WordNext38(t);
    KeyWordStep(t, KeyA1, 38, [0x19, 0xfa, 0xdc, 0x21], [0x31, 0x2b, 0xf5, 0x60], [0x28, 0xd1, 0x29, 0x41]);
  }

  /** NextKeyWord on the values of words 38 and 35. */
  lemma WordNext39(t: Table)
    ensures NextKeyWord(t, 39, [0x28, 0xd1, 0x29, 0x41], [0x7f, 0x8d, 0x29, 0x2f]) == [0x57, 0x5c, 0x00, 0x6e]
  {}

  /** Word 39 of the expansion. */
  lemma Word39(t: Table)
    requires KeyWord(t, KeyA1, 38) == [0x28, 0xd1, 0x29, 0x41]
    requires KeyWord(t, KeyA1, 35) == [0x7f, 0x8d, 0x29, 0x2f]
    ensures KeyWord(t, KeyA1, 39) == [0x57, 0x5c, 0x00, 0x6e]
  {
    WordNext39(t);
    KeyWordStep(t, KeyA1, 39, [0x28, 0xd1, 0x29, 0x41], [0x7f, 0x8d, 0x29, 0x2f], [0x57, 0x5c, 0x00, 0x6e]);
  }

  /** The S-box entries and the round constant word 40 needs. */
  lemma WordLookups40(t: Table)
    requires forall b: bv8 :: t[b] == FipsSBox(b)
    ensures t[0x57] == 0x5b
    ensures t[0x5c] == 0x4a
    ensures t[0x00] == 0x63
    ensures t[0x6e] == 0x9f
    ensures RoundConstant(10) == 0x36
  {
    FipsAt(t, 0x57, 0x5b);
    FipsAt(t, 0x5c, 0x4a);
    FipsAt(t, 0x00, 0x63);
    FipsAt(t, 0x6e, 0x9f);
    RoundConstantValues();
  }

  /** NextKeyWord on the values of words 39 and 36. */
  lemma WordNext40(t: Table)
    requires t[0x57] == 0x5b
    requires t[0x5c] == 0x4a
    requires t[0x00] == 0x63
    requires t[0x6e] == 0x9f
    requires RoundConstant(10) == 0x36
    ensures NextKeyWord(t, 40, [0x57, 0x5c, 0x00, 0x6e], [0xac, 0x77, 0x66, 0xf3]) == [0xd0, 0x14, 0xf9, 0xa8]
  {}

  /** Word 40 of the expansion. */
  lemma Word40(t: Table)
    requires forall b: bv8 :: t[b] == FipsSBox(b)
    requires KeyWord(t, KeyA1, 39) == [0x57, 0x5c, 0x00, 0x6e]
    requires KeyWord(t, KeyA1, 36) == [0xac, 0x77, 0x66, 0xf3]
    ensures KeyWord(t, KeyA1, 40) == [0xd0, 0x14, 0xf9, 0xa8]
  {
    WordLookups40(t);
    WordNext40(t);
    KeyWordStep(t, KeyA1, 40, [0x57, 0x5c, 0x00, 0x6e], [0xac, 0x77, 0x66, 0xf3], [0xd0, 0x14, 0xf9, 0xa8]);
  }

  /** NextKeyWord on the values of words 40 and 37. */
  lemma WordNext41(t: Table)
    ensures NextKeyWord(t, 41, [0xd0, 0x14, 0xf9, 0xa8], [0x19, 0xfa, 0xdc, 0x21]) == [0xc9, 0xee, 0x25, 0x89]
  {}

  /** Word 41 of the expansion. */
  lemma Word41(t: Table)
    requires KeyWord(t, KeyA1, 40) == [0xd0, 0x14, 0xf9, 0xa8]
    requires KeyWord(t, KeyA1, 37) == [0x19, 0xfa, 0xdc, 0x21]
    ensures KeyWord(t, KeyA1, 41) == [0xc9, 0xee, 0x25, 0x89]
  {
    WordNext41(t);
    KeyWordStep(t, KeyA1, 41, [0xd0, 0x14, 0xf9, 0xa8], [0x19, 0xfa, 0xdc, 0x21], [0xc9, 0xee, 0x25, 0x89]);
  }

  /** NextKeyWord on the values of words 41 and 38. */
  lemma WordNext42(t: Table)
    ensures NextKeyWord(t, 42, [0xc9, 0xee, 0x25, 0x89], [0x28, 0xd1, 0x29, 0x41]) == [0xe1, 0x3f, 0x0c, 0xc8]
  {}

  /** Word 42 of the expansion. */
  lemma Word42(t: Table)
    requires KeyWord(t, KeyA1, 41) == [0xc9, 0xee, 0x25, 0x89]
    requires KeyWord(t, KeyA1, 38) == [0x28, 0xd1, 0x29, 0x41]
    ensures KeyWord(t, KeyA1, 42) == [0xe1, 0x3f, 0x0c, 0xc8]
  {
    WordNext42(t);
    KeyWordStep(t, KeyA1, 42, [0xc9, 0xee, 0x25, 0x89], [0x28, 0xd1, 0x29, 0x41], [0xe1, 0x3f, 0x0c, 0xc8]);
  }

  /** NextKeyWord on the values of words 42 and 39. */
  lemma WordNext43(t: Table)
    ensures NextKeyWord(t, 43, [0xe1, 0x3f, 0x0c, 0xc8], [0x57, 0x5c, 0x00, 0x6e]) == [0xb6, 0x63, 0x0c, 0xa6]
  {}

  /** Word 43 of the expansion. */
  lemma Word43(t: Table)
    requires KeyWord(t, KeyA1, 42) == [0xe1, 0x3f, 0x0c, 0xc8]
    requires KeyWord(t, KeyA1, 39) == [0x57, 0x5c, 0x00, 0x6e]
    ensures KeyWord(t, KeyA1, 43) == [0xb6, 0x63, 0x0c, 0xa6]
  {
    WordNext43(t);
    KeyWordStep(t, KeyA1, 43, [0xe1, 0x3f, 0x0c, 0xc8], [0x57, 0x5c, 0x00, 0x6e], [0xb6, 0x63, 0x0c, 0xa6]);
  }

  /** Words 4..7 (round key 1) from the four before them. */
  lemma KeyRound1(t: Table)
    requires forall b: bv8 :: t[b] == FipsSBox(b)
    requires KeyWord(t, KeyA1, 0) == [0x2b, 0x7e, 0x15, 0x16]
    requires KeyWord(t, KeyA1, 1) == [0x28, 0xae, 0xd2, 0xa6]
    requires KeyWord(t, KeyA1, 2) == [0xab, 0xf7, 0x15, 0x88]
    requires KeyWord(t, KeyA1, 3) == [0x09, 0xcf, 0x4f, 0x3c]
    ensures KeyWord(t, KeyA1, 4) == [0xa0, 0xfa, 0xfe, 0x17]
    ensures KeyWord(t, KeyA1, 5) == [0x88, 0x54, 0x2c, 0xb1]
    ensures KeyWord(t, KeyA1, 6) == [0x23, 0xa3, 0x39, 0x39]
    ensures KeyWord(t, KeyA1, 7) == [0x2a, 0x6c, 0x76, 0x05]
  {
    Word4(t);
    Word5(t);
    Word6(t);
    Word7(t);
  }

  /** Words 8..11 (round key 2) from the four before them. */
  lemma KeyRound2(t: Table)
    requires forall b: bv8 :: t[b] == FipsSBox(b)
    requires KeyWord(t, KeyA1, 4) == [0xa0, 0xfa, 0xfe, 0x17]
    requires KeyWord(t, KeyA1, 5) == [0x88, 0x54, 0x2c, 0xb1]
    requires KeyWord(t, KeyA1, 6) == [0x23, 0xa3, 0x39, 0x39]
    requires KeyWord(t, KeyA1, 7) == [0x2a, 0x6c, 0x76, 0x05]
    ensures KeyWord(t, KeyA1, 8) == [0xf2, 0xc2, 0x95, 0xf2]
    ensures KeyWord(t, KeyA1, 9) == [0x7a, 0x96, 0xb9, 0x43]
    ensures KeyWord(t, KeyA1, 10) == [0x59, 0x35, 0x80, 0x7a]
    ensures KeyWord(t, KeyA1, 11) == [0x73, 0x59, 0xf6, 0x7f]
  {
    Word8(t);
    Word9(t);
    Word10(t);
    Word11(t);
  }

  /** Words 12..15 (round key 3) from the four before them. */
  lemma KeyRound3(t: Table)
    requires forall b: bv8 :: t[b] == FipsSBox(b)
    requires KeyWord(t, KeyA1, 8) == [0xf2, 0xc2, 0x95, 0xf2]
    requires KeyWord(t, KeyA1, 9) == [0x7a, 0x96, 0xb9, 0x43]
    requires KeyWord(t, KeyA1, 10) == [0x59, 0x35, 0x80, 0x7a]
    requires KeyWord(t, KeyA1, 11) == [0x73, 0x59, 0xf6, 0x7f]
    ensures KeyWord(t, KeyA1, 12) == [0x3d, 0x80, 0x47, 0x7d]
    ensures KeyWord(t, KeyA1, 13) == [0x47, 0x16, 0xfe, 0x3e]
    ensures KeyWord(t, KeyA1, 14) == [0x1e, 0x23, 0x7e, 0x44]
    ensures KeyWord(t, KeyA1, 15) == [0x6d, 0x7a, 0x88, 0x3b]
  {
    Word12(t);
    Word13(t);
    Word14(t);
    Word15(t);
  }

  /** Words 16..19 (round key 4) from the four before them. */
  lemma KeyRound4(t: Table)
    requires forall b: bv8 :: t[b] == FipsSBox(b)
    requires KeyWord(t, KeyA1, 12) == [0x3d, 0x80, 0x47, 0x7d]
    requires KeyWord(t, KeyA1, 13) == [0x47, 0x16, 0xfe, 0x3e]
    requires KeyWord(t, KeyA1, 14) == [0x1e, 0x23, 0x7e, 0x44]
    requires KeyWord(t, KeyA1, 15) == [0x6d, 0x7a, 0x88, 0x3b]
    ensures KeyWord(t, KeyA1, 16) == [0xef, 0x44, 0xa5, 0x41]
    ensures KeyWord(t, KeyA1, 17) == [0xa8, 0x52, 0x5b, 0x7f]
    ensures KeyWord(t, KeyA1, 18) == [0xb6, 0x71, 0x25, 0x3b]
    ensures KeyWord(t, KeyA1, 19) == [0xdb, 0x0b, 0xad, 0x00]
  {
    Word16(t);
    Word17(t);
    Word18(t);
    Word19(t);
  }

  /** Words 20..23 (round key 5) from the four before them. */
  lemma KeyRound5(t: Table)
    requires forall b: bv8 :: t[b] == FipsSBox(b)
    requires KeyWord(t, KeyA1, 16) == [0xef, 0x44, 0xa5, 0x41]
    requires KeyWord(t, KeyA1, 17) == [0xa8, 0x52, 0x5b, 0x7f]
    requires KeyWord(t, KeyA1, 18) == [0xb6, 0x71, 0x25, 0x3b]
    requires KeyWord(t, KeyA1, 19) == [0xdb, 0x0b, 0xad, 0x00]
    ensures KeyWord(t, KeyA1, 20) == [0xd4, 0xd1, 0xc6, 0xf8]
    ensures KeyWord(t, KeyA1, 21) == [0x7c, 0x83, 0x9d, 0x87]
    ensures KeyWord(t, KeyA1, 22) == [0xca, 0xf2, 0xb8, 0xbc]
    ensures KeyWord(t, KeyA1, 23) == [0x11, 0xf9, 0x15, 0xbc]
  {
    Word20(t);
    Word21(t);
    Word22(t);
    Word23(t);
  }

  /** Words 24..27 (round key 6) from the four before them. */
  lemma KeyRound6(t: Table)
    requires forall b: bv8 :: t[b] == FipsSBox(b)
    requires KeyWord(t, KeyA1, 20) == [0xd4, 0xd1, 0xc6, 0xf8]
    requires KeyWord(t, KeyA1, 21) == [0x7c, 0x83, 0x9d, 0x87]
    requires KeyWord(t, KeyA1, 22) == [0xca, 0xf2, 0xb8, 0xbc]
    requires KeyWord(t, KeyA1, 23) == [0x11, 0xf9, 0x15, 0xbc]
    ensures KeyWord(t, KeyA1, 24) == [0x6d, 0x88, 0xa3, 0x7a]
    ensures KeyWord(t, KeyA1, 25) == [0x11, 0x0b, 0x3e, 0xfd]
    ensures KeyWord(t, KeyA1, 26) == [0xdb, 0xf9, 0x86, 0x41]
    ensures KeyWord(t, KeyA1, 27) == [0xca, 0x00, 0x93, 0xfd]
  {
    Word24(t);
    Word25(t);
    Word26(t);
    Word27(t);
  }

  /** Words 28..31 (round key 7) from the four before them. */
  lemma KeyRound7(t: Table)
    requires forall b: bv8 :: t[b] == FipsSBox(b)
    requires KeyWord(t, KeyA1, 24) == [0x6d, 0x88, 0xa3, 0x7a]
    requires KeyWord(t, KeyA1, 25) == [0x11, 0x0b, 0x3e, 0xfd]
    requires KeyWord(t, KeyA1, 26) == [0xdb, 0xf9, 0x86, 0x41]
    requires KeyWord(t, KeyA1, 27) == [0xca, 0x00, 0x93, 0xfd]
    ensures KeyWord(t, KeyA1, 28) == [0x4e, 0x54, 0xf7, 0x0e]
    ensures KeyWord(t, KeyA1, 29) == [0x5f, 0x5f, 0xc9, 0xf3]
    ensures KeyWord(t, KeyA1, 30) == [0x84, 0xa6, 0x4f, 0xb2]
    ensures KeyWord(t, KeyA1, 31) == [0x4e, 0xa6, 0xdc, 0x4f]
  {
    Word28(t);
    Word29(t);
    Word30(t);
    Word31(t);
  }

  /** Words 32..35 (round key 8) from the four before them. */
  lemma KeyRound8(t: Table)
    requires forall b: bv8 :: t[b] == FipsSBox(b)
    requires KeyWord(t, KeyA1, 28) == [0x4e, 0x54, 0xf7, 0x0e]
    requires KeyWord(t, KeyA1, 29) == [0x5f, 0x5f, 0xc9, 0xf3]
    requires KeyWord(t, KeyA1, 30) == [0x84, 0xa6, 0x4f, 0xb2]
    requires KeyWord(t, KeyA1, 31) == [0x4e, 0xa6, 0xdc, 0x4f]
    ensures KeyWord(t, KeyA1, 32) == [0xea, 0xd2, 0x73, 0x21]
    ensures KeyWord(t, KeyA1, 33) == [0xb5, 0x8d, 0xba, 0xd2]
    ensures KeyWord(t, KeyA1, 34) == [0x31, 0x2b, 0xf5, 0x60]
    ensures KeyWord(t, KeyA1, 35) == [0x7f, 0x8d, 0x29, 0x2f]
  {
    Word32(t);
    Word33(t);
    Word34(t);
    Word35(t);
  }

  /** Words 36..39 (round key 9) from the four before them. */
  lemma KeyRound9(t: Table)
    requires forall b: bv8 :: t[b] == FipsSBox(b)
    requires KeyWord(t, KeyA1, 32) == [0xea, 0xd2, 0x73, 0x21]
    requires KeyWord(t, KeyA1, 33) == [0xb5, 0x8d, 0xba, 0xd2]
    requires KeyWord(t, KeyA1, 34) == [0x31, 0x2b, 0xf5, 0x60]
    requires KeyWord(t, KeyA1, 35) == [0x7f, 0x8d, 0x29, 0x2f]
    ensures KeyWord(t, KeyA1, 36) == [0xac, 0x77, 0x66, 0xf3]
    ensures KeyWord(t, KeyA1, 37) == [0x19, 0xfa, 0xdc, 0x21]
    ensures KeyWord(t, KeyA1, 38) == [0x28, 0xd1, 0x29, 0x41]
    ensures KeyWord(t, KeyA1, 39) == [0x57, 0x5c, 0x00, 0x6e]
  {
    Word36(t);
    Word37(t);
    Word38(t);
    Word39(t);
  }

  /** Words 40..43 (round key 10) from the four before them. */
  lemma KeyRound10(t: Table)
    requires forall b: bv8 :: t[b] == FipsSBox(b)
    requires KeyWord(t, KeyA1, 36) == [0xac, 0x77, 0x66, 0xf3]
    requires KeyWord(t, KeyA1, 37) == [0x19, 0xfa, 0xdc, 0x21]
    requires KeyWord(t, KeyA1, 38) == [0x28, 0xd1, 0x29, 0x41]
    requires KeyWord(t, KeyA1, 39) == [0x57, 0x5c, 0x00, 0x6e]
    ensures KeyWord(t, KeyA1, 40) == [0xd0, 0x14, 0xf9, 0xa8]
    ensures KeyWord(t, KeyA1, 41) == [0xc9, 0xee, 0x25, 0x89]
    ensures KeyWord(t, KeyA1, 42) == [0xe1, 0x3f, 0x0c, 0xc8]
    ensures KeyWord(t, KeyA1, 43) == [0xb6, 0x63, 0x0c, 0xa6]
  {
    Word40(t);
    Word41(t);
    Word42(t);
    Word43(t);
  }

  /**
   * KeyUpto<n>: round key n of the expansion, and every word up to it agrees
   * with the list of Appendix A.1.
   */
  lemma KeyUpto0(t: Table)
    requires forall b: bv8 :: t[b] == FipsSBox(b)
    ensures KeyWord(t, KeyA1, 0) == [0x2b, 0x7e, 0x15, 0x16]
    ensures KeyWord(t, KeyA1, 1) == [0x28, 0xae, 0xd2, 0xa6]
    ensures KeyWord(t, KeyA1, 2) == [0xab, 0xf7, 0x15, 0x88]
    ensures KeyWord(t, KeyA1, 3) == [0x09, 0xcf, 0x4f, 0x3c]
    ensures forall i | 0 <= i < 4 :: KeyWord(t, KeyA1, i) == WordsA1[i]
  {
    KeyBase(t);
    forall i | 0 <= i < 4
      ensures KeyWord(t, KeyA1, i) == WordsA1[i]
    {
      assert i == 0 || i == 1 || i == 2 || i == 3;
    }
  }
  lemma KeyUpto1(t: Table)
    requires forall b: bv8 :: t[b] == FipsSBox(b)
    ensures KeyWord(t, KeyA1, 4) == [0xa0, 0xfa, 0xfe, 0x17]
    ensures KeyWord(t, KeyA1, 5) == [0x88, 0x54, 0x2c, 0xb1]
    ensures KeyWord(t, KeyA1, 6) == [0x23, 0xa3, 0x39, 0x39]
    ensures KeyWord(t, KeyA1, 7) == [0x2a, 0x6c, 0x76, 0x05]
    ensures forall i | 0 <= i < 8 :: KeyWord(t, KeyA1, i) == WordsA1[i]
  {
    KeyUpto0(t);
    KeyRound1(t);
    forall i | 4 <= i < 8
      ensures KeyWord(t, KeyA1, i) == WordsA1[i]
    {
      assert i == 4 || i == 5 || i == 6 || i == 7;
    }
  }
  lemma KeyUpto2(t: Table)
    requires forall b: bv8 :: t[b] == FipsSBox(b)
    ensures KeyWord(t, KeyA1, 8) == [0xf2, 0xc2, 0x95, 0xf2]
    ensures KeyWord(t, KeyA1, 9) == [0x7a, 0x96, 0xb9, 0x43]
    ensures KeyWord(t, KeyA1, 10) == [0x59, 0x35, 0x80, 0x7a]
    ensures KeyWord(t, KeyA1, 11) == [0x73, 0x59, 0xf6, 0x7f]
    ensures forall i | 0 <= i < 12 :: KeyWord(t, KeyA1, i) == WordsA1[i]
  {
    KeyUpto1(t);
    KeyRound2(t);
    forall i | 8 <= i < 12
      ensures KeyWord(t, KeyA1, i) == WordsA1[i]
    {
      assert i == 8 || i == 9 || i == 10 || i == 11;
    }
  }
  lemma KeyUpto3(t: Table)
    requires forall b: bv8 :: t[b] == FipsSBox(b)
    ensures KeyWord(t, KeyA1, 12) == [0x3d, 0x80, 0x47, 0x7d]
    ensures KeyWord(t, KeyA1, 13) == [0x47, 0x16, 0xfe, 0x3e]
    ensures KeyWord(t, KeyA1, 14) == [0x1e, 0x23, 0x7e, 0x44]
    ensures KeyWord(t, KeyA1, 15) == [0x6d, 0x7a, 0x88, 0x3b]
    ensures forall i | 0 <= i < 16 :: KeyWord(t, KeyA1, i) == WordsA1[i]
  {
    KeyUpto2(t);
    KeyRound3(t);
    forall i | 12 <= i < 16
      ensures KeyWord(t, KeyA1, i) == WordsA1[i]
    {
      assert i == 12 || i == 13 || i == 14 || i == 15;
    }
  }
  lemma KeyUpto4(t: Table)
    requires forall b: bv8 :: t[b] == FipsSBox(b)
    ensures KeyWord(t, KeyA1, 16) == [0xef, 0x44, 0xa5, 0x41]
    ensures KeyWord(t, KeyA1, 17) == [0xa8, 0x52, 0x5b, 0x7f]
    ensures KeyWord(t, KeyA1, 18) == [0xb6, 0x71, 0x25, 0x3b]
    ensures KeyWord(t, KeyA1, 19) == [0xdb, 0x0b, 0xad, 0x00]
    ensures forall i | 0 <= i < 20 :: KeyWord(t, KeyA1, i) == WordsA1[i]
  {
    KeyUpto3(t);
    KeyRound4(t);
    forall i | 16 <= i < 20
      ensures KeyWord(t, KeyA1, i) == WordsA1[i]
    {
      assert i == 16 || i == 17 || i == 18 || i == 19;
    }
  }
  lemma KeyUpto5(t: Table)
    requires forall b: bv8 :: t[b] == FipsSBox(b)
    ensures KeyWord(t, KeyA1, 20) == [0xd4, 0xd1, 0xc6, 0xf8]
    ensures KeyWord(t, KeyA1, 21) == [0x7c, 0x83, 0x9d, 0x87]
    ensures KeyWord(t, KeyA1, 22) == [0xca, 0xf2, 0xb8, 0xbc]
    ensures KeyWord(t, KeyA1, 23) == [0x11, 0xf9, 0x15, 0xbc]
    ensures forall i | 0 <= i < 24 :: KeyWord(t, KeyA1, i) == WordsA1[i]
  {
    KeyUpto4(t);
    KeyRound5(t);
    forall i | 20 <= i < 24
      ensures KeyWord(t, KeyA1, i) == WordsA1[i]
    {
      assert i == 20 || i == 21 || i == 22 || i == 23;
    }
  }
  lemma KeyUpto6(t: Table)
    requires forall b: bv8 :: t[b] == FipsSBox(b)
    ensures KeyWord(t, KeyA1, 24) == [0x6d, 0x88, 0xa3, 0x7a]
    ensures KeyWord(t, KeyA1, 25) == [0x11, 0x0b, 0x3e, 0xfd]
    ensures KeyWord(t, KeyA1, 26) == [0xdb, 0xf9, 0x86, 0x41]
    ensures KeyWord(t, KeyA1, 27) == [0xca, 0x00, 0x93, 0xfd]
    ensures forall i | 0 <= i < 28 :: KeyWord(t, KeyA1, i) == WordsA1[i]
  {
    KeyUpto5(t);
    KeyRound6(t);
    forall i | 24 <= i < 28
      ensures KeyWord(t, KeyA1, i) == WordsA1[i]
    {
      assert i == 24 || i == 25 || i == 26 || i == 27;
    }
  }
  lemma KeyUpto7(t: Table)
    requires forall b: bv8 :: t[b] == FipsSBox(b)
    ensures KeyWord(t, KeyA1, 28) == [0x4e, 0x54, 0xf7, 0x0e]
    ensures KeyWord(t, KeyA1, 29) == [0x5f, 0x5f, 0xc9, 0xf3]
    ensures KeyWord(t, KeyA1, 30) == [0x84, 0xa6, 0x4f, 0xb2]
    ensures KeyWord(t, KeyA1, 31) == [0x4e, 0xa6, 0xdc, 0x4f]
    ensures forall i | 0 <= i < 32 :: KeyWord(t, KeyA1, i) == WordsA1[i]
  {
    KeyUpto6(t);
    KeyRound7(t);
    forall i | 28 <= i < 32
      ensures KeyWord(t, KeyA1, i) == WordsA1[i]
    {
      assert i == 28 || i == 29 || i == 30 || i == 31;
    }
  }
  lemma KeyUpto8(t: Table)
    requires forall b: bv8 :: t[b] == FipsSBox(b)
    ensures KeyWord(t, KeyA1, 32) == [0xea, 0xd2, 0x73, 0x21]
    ensures KeyWord(t, KeyA1, 33) == [0xb5, 0x8d, 0xba, 0xd2]
    ensures KeyWord(t, KeyA1, 34) == [0x31, 0x2b, 0xf5, 0x60]
    ensures KeyWord(t, KeyA1, 35) == [0x7f, 0x8d, 0x29, 0x2f]
    ensures forall i | 0 <= i < 36 :: KeyWord(t, KeyA1, i) == WordsA1[i]
  {
    KeyUpto7(t);
    KeyRound8(t);
    forall i | 32 <= i < 36
      ensures KeyWord(t, KeyA1, i) == WordsA1[i]
    {
      assert i == 32 || i == 33 || i == 34 || i == 35;
    }
  }
  lemma KeyUpto9(t: Table)
    requires forall b: bv8 :: t[b] == FipsSBox(b)
    ensures KeyWord(t, KeyA1, 36) == [0xac, 0x77, 0x66, 0xf3]
    ensures KeyWord(t, KeyA1, 37) == [0x19, 0xfa, 0xdc, 0x21]
    ensures KeyWord(t, KeyA1, 38) == [0x28, 0xd1, 0x29, 0x41]
    ensures KeyWord(t, KeyA1, 39) == [0x57, 0x5c, 0x00, 0x6e]
    ensures forall i | 0 <= i < 40 :: KeyWord(t, KeyA1, i) == WordsA1[i]
  {
    KeyUpto8(t);
    KeyRound9(t);
    forall i | 36 <= i < 40
      ensures KeyWord(t, KeyA1, i) == WordsA1[i]
    {
      assert i == 36 || i == 37 || i == 38 || i == 39;
    }
  }
  lemma KeyUpto10(t: Table)
    requires forall b: bv8 :: t[b] == FipsSBox(b)
    ensures KeyWord(t, KeyA1, 40) == [0xd0, 0x14, 0xf9, 0xa8]
    ensures KeyWord(t, KeyA1, 41) == [0xc9, 0xee, 0x25, 0x89]
    ensures KeyWord(t, KeyA1, 42) == [0xe1, 0x3f, 0x0c, 0xc8]
    ensures KeyWord(t, KeyA1, 43) == [0xb6, 0x63, 0x0c, 0xa6]
    ensures forall i | 0 <= i < 44 :: KeyWord(t, KeyA1, i) == WordsA1[i]
  {
    KeyUpto9(t);
    KeyRound10(t);
    forall i | 40 <= i < 44
      ensures KeyWord(t, KeyA1, i) == WordsA1[i]
    {
      assert i == 40 || i == 41 || i == 42 || i == 43;
    }
  }
  lemma KeyBase(t: Table)
    ensures KeyWord(t, KeyA1, 0) == [0x2b, 0x7e, 0x15, 0x16]
    ensures KeyWord(t, KeyA1, 1) == [0x28, 0xae, 0xd2, 0xa6]
    ensures KeyWord(t, KeyA1, 2) == [0xab, 0xf7, 0x15, 0x88]
    ensures KeyWord(t, KeyA1, 3) == [0x09, 0xcf, 0x4f, 0x3c]
  {}

  /** The word of bytes a, b, c, d. */
  function W(a: bv8, b: bv8, c: bv8, d: bv8): Word { [a, b, c, d] }

  /** The 44 words of the expansion, as Appendix A.1 lists them (w[0] .. w[43]). */
  const WordsA1: seq<Word> := [
    W(0x2b, 0x7e, 0x15, 0x16), W(0x28, 0xae, 0xd2, 0xa6), W(0xab, 0xf7, 0x15, 0x88), W(0x09, 0xcf, 0x4f, 0x3c),
    W(0xa0, 0xfa, 0xfe, 0x17), W(0x88, 0x54, 0x2c, 0xb1), W(0x23, 0xa3, 0x39, 0x39), W(0x2a, 0x6c, 0x76, 0x05),
    W(0xf2, 0xc2, 0x95, 0xf2), W(0x7a, 0x96, 0xb9, 0x43), W(0x59, 0x35, 0x80, 0x7a), W(0x73, 0x59, 0xf6, 0x7f),
    W(0x3d, 0x80, 0x47, 0x7d), W(0x47, 0x16, 0xfe, 0x3e), W(0x1e, 0x23, 0x7e, 0x44), W(0x6d, 0x7a, 0x88, 0x3b),
    W(0xef, 0x44, 0xa5, 0x41), W(0xa8, 0x52, 0x5b, 0x7f), W(0xb6, 0x71, 0x25, 0x3b), W(0xdb, 0x0b, 0xad, 0x00),
    W(0xd4, 0xd1, 0xc6, 0xf8), W(0x7c, 0x83, 0x9d, 0x87), W(0xca, 0xf2, 0xb8, 0xbc), W(0x11, 0xf9, 0x15, 0xbc),
    W(0x6d, 0x88, 0xa3, 0x7a), W(0x11, 0x0b, 0x3e, 0xfd), W(0xdb, 0xf9, 0x86, 0x41), W(0xca, 0x00, 0x93, 0xfd),
    W(0x4e, 0x54, 0xf7, 0x0e), W(0x5f, 0x5f, 0xc9, 0xf3), W(0x84, 0xa6, 0x4f, 0xb2), W(0x4e, 0xa6, 0xdc, 0x4f),
    W(0xea, 0xd2, 0x73, 0x21), W(0xb5, 0x8d, 0xba, 0xd2), W(0x31, 0x2b, 0xf5, 0x60), W(0x7f, 0x8d, 0x29, 0x2f),
    W(0xac, 0x77, 0x66, 0xf3), W(0x19, 0xfa, 0xdc, 0x21), W(0x28, 0xd1, 0x29, 0x41), W(0x57, 0x5c, 0x00, 0x6e),
    W(0xd0, 0x14, 0xf9, 0xa8), W(0xc9, 0xee, 0x25, 0x89), W(0xe1, 0x3f, 0x0c, 0xc8), W(0xb6, 0x63, 0x0c, 0xa6)
  ]

  /** Under the S-box of Figure 7, the words of the expansion are those of WordsA1. */
  lemma KeyWordsA1(t: Table)
    requires forall b: bv8 :: t[b] == FipsSBox(b)
    ensures forall i | 0 <= i < 44 :: KeyWord(t, KeyA1, i) == WordsA1[i]
  {
    KeyUpto10(t);
  }

  /**
   * Appendix A.1: with the S-box, KeyA1 expands to the 44 words the
   * appendix lists, so the schedule is those words laid end to end; it ends
   * with the round key d014f9a8 c9ee2589 e13f0cc8 b6630ca6.
   */
  lemma KeyExpansionA1(t: Table)
    requires t == SBoxTable()
    ensures forall i | 0 <= i < 44 :: KeyWord(t, KeyA1, i) == WordsA1[i]
    ensures ExpandKey(t, KeyA1) == WordBytes(WordsA1)
  {
    SBoxTableIsFips(t);
    KeyWordsA1(t);
    ExpandKeyWords(t, KeyA1, WordsA1);
  }
}
