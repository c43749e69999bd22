/**
 * Appendix C.1 of FIPS 197 (AES-128): the key 000102..0f encrypts the block
 * 00112233..ff to 69c4e0d86a7b0430d8cdb78070b4c55a. The key expansion goes word by word
 * as in ExampleA1; each round then goes column by column, SubBytes and
 * ShiftRows, MixColumns and AddRoundKey in turn, on the bytes the round
 * before produced.
 */
module ExampleC1 {
  import opened Bytes
  import opened Substitution
  import opened KeyExpansion
  import opened RoundConstants
  import opened KnownAnswers
  import opened Cipher
  import opened AesEncode

  /** The cipher key, the plaintext and the ciphertext of Appendix C.1. */
  const KeyC1: Block := [0x00, 0x01, 0x02, 0x03, 0x04, 0x05, 0x06, 0x07, 0x08, 0x09, 0x0a, 0x0b, 0x0c, 0x0d, 0x0e, 0x0f]
  const PlainC1: Block := [0x00, 0x11, 0x22, 0x33, 0x44, 0x55, 0x66, 0x77, 0x88, 0x99, 0xaa, 0xbb, 0xcc, 0xdd, 0xee, 0xff]
  const CipherC1: Block := [0x69, 0xc4, 0xe0, 0xd8, 0x6a, 0x7b, 0x04, 0x30, 0xd8, 0xcd, 0xb7, 0x80, 0x70, 0xb4, 0xc5, 0x5a]

  /** The S-box entries and the round constant word 4 needs. */
  lemma WordLookups4(t: Table)
    requires forall b: bv8 :: t[b] == FipsSBox(b)
    ensures t[0x0c] == 0xfe
    ensures t[0x0d] == 0xd7
    ensures t[0x0e] == 0xab
    ensures t[0x0f] == 0x76
    ensures RoundConstant(1) == 0x01
  {
    FipsAt(t, 0x0c, 0xfe);
    FipsAt(t, 0x0d, 0xd7);
    FipsAt(t, 0x0e, 0xab);
    FipsAt(t, 0x0f, 0x76);
    RoundConstantValues();
  }

  /** NextKeyWord on the values of words 3 and 0. */
  lemma WordNext4(t: Table)
    requires t[0x0c] == 0xfe
    requires t[0x0d] == 0xd7
    requires t[0x0e] == 0xab
    requires t[0x0f] == 0x76
    requires RoundConstant(1) == 0x01
    ensures NextKeyWord(t, 4, [0x0c, 0x0d, 0x0e, 0x0f], [0x00, 0x01, 0x02, 0x03]) == [0xd6, 0xaa, 0x74, 0xfd]
  {}

  /** Word 4 of the expansion. */
  lemma Word4(t: Table)
    requires forall b: bv8 :: t[b] == FipsSBox(b)
    requires KeyWord(t, KeyC1, 3) == [0x0c, 0x0d, 0x0e, 0x0f]
    requires KeyWord(t, KeyC1, 0) == [0x00, 0x01, 0x02, 0x03]
    ensures KeyWord(t, KeyC1, 4) == [0xd6, 0xaa, 0x74, 0xfd]
  {
    WordLookups4(t);
    WordNext4(t);
    KeyWordStep(t, KeyC1, 4, [0x0c, 0x0d, 0x0e, 0x0f], [0x00, 0x01, 0x02, 0x03], [0xd6, 0xaa, 0x74, 0xfd]);
  }

  /** NextKeyWord on the values of words 4 and 1. */
  lemma WordNext5(t: Table)
    ensures NextKeyWord(t, 5, [0xd6, 0xaa, 0x74, 0xfd], [0x04, 0x05, 0x06, 0x07]) == [0xd2, 0xaf, 0x72, 0xfa]
  {}

  /** Word 5 of the expansion. */
  lemma Word5(t: Table)
    requires KeyWord(t, KeyC1, 4) == [0xd6, 0xaa, 0x74, 0xfd]
    requires KeyWord(t, KeyC1, 1) == [0x04, 0x05, 0x06, 0x07]
    ensures KeyWord(t, KeyC1, 5) == [0xd2, 0xaf, 0x72, 0xfa]
  {
    WordNext5(t);
    KeyWordStep(t, KeyC1, 5, [0xd6, 0xaa, 0x74, 0xfd], [0x04, 0x05, 0x06, 0x07], [0xd2, 0xaf, 0x72, 0xfa]);
  }

  /** NextKeyWord on the values of words 5 and 2. */
  lemma WordNext6(t: Table)
    ensures NextKeyWord(t, 6, [0xd2, 0xaf, 0x72, 0xfa], [0x08, 0x09, 0x0a, 0x0b]) == [0xda, 0xa6, 0x78, 0xf1]
  {}

  /** Word 6 of the expansion. */
  lemma Word6(t: Table)
    requires KeyWord(t, KeyC1, 5) == [0xd2, 0xaf, 0x72, 0xfa]
    requires KeyWord(t, KeyC1, 2) == [0x08, 0x09, 0x0a, 0x0b]
    ensures KeyWord(t, KeyC1, 6) == [0xda, 0xa6, 0x78, 0xf1]
  {
    WordNext6(t);
    KeyWordStep(t, KeyC1, 6, [0xd2, 0xaf, 0x72, 0xfa], [0x08, 0x09, 0x0a, 0x0b], [0xda, 0xa6, 0x78, 0xf1]);
  }

  /** NextKeyWord on the values of words 6 and 3. */
  lemma WordNext7(t: Table)
    ensures NextKeyWord(t, 7, [0xda, 0xa6, 0x78, 0xf1], [0x0c, 0x0d, 0x0e, 0x0f]) == [0xd6, 0xab, 0x76, 0xfe]
  {}

  /** Word 7 of the expansion. */
  lemma Word7(t: Table)
    requires KeyWord(t, KeyC1, 6) == [0xda, 0xa6, 0x78, 0xf1]
    requires KeyWord(t, KeyC1, 3) == [0x0c, 0x0d, 0x0e, 0x0f]
    ensures KeyWord(t, KeyC1, 7) == [0xd6, 0xab, 0x76, 0xfe]
  {
    WordNext7(t);
    KeyWordStep(t, KeyC1, 7, [0xda, 0xa6, 0x78, 0xf1], [0x0c, 0x0d, 0x0e, 0x0f], [0xd6, 0xab, 0x76, 0xfe]);
  }

  /** The S-box entries and the round constant word 8 needs. */
  lemma WordLookups8(t: Table)
    requires forall b: bv8 :: t[b] == FipsSBox(b)
    ensures t[0xd6] == 0xf6
    ensures t[0xab] == 0x62
    ensures t[0x76] == 0x38
    ensures t[0xfe] == 0xbb
    ensures RoundConstant(2) == 0x02
  {
    FipsAt(t, 0xd6, 0xf6);
    FipsAt(t, 0xab, 0x62);
    FipsAt(t, 0x76, 0x38);
    FipsAt(t, 0xfe, 0xbb);
    RoundConstantValues();
  }

  /** NextKeyWord on the values of words 7 and 4. */
  lemma WordNext8(t: Table)
    requires t[0xd6] == 0xf6
    requires t[0xab] == 0x62
    requires t[0x76] == 0x38
    requires t[0xfe] == 0xbb
    requires RoundConstant(2) == 0x02
    ensures NextKeyWord(t, 8, [0xd6, 0xab, 0x76, 0xfe], [0xd6, 0xaa, 0x74, 0xfd]) == [0xb6, 0x92, 0xcf, 0x0b]
  {}

  /** Word 8 of the expansion. */
  lemma Word8(t: Table)
    requires forall b: bv8 :: t[b] == FipsSBox(b)
    requires KeyWord(t, KeyC1, 7) == [0xd6, 0xab, 0x76, 0xfe]
    requires KeyWord(t, KeyC1, 4) == [0xd6, 0xaa, 0x74, 0xfd]
    ensures KeyWord(t, KeyC1, 8) == [0xb6, 0x92, 0xcf, 0x0b]
  {
    WordLookups8(t);
    WordNext8(t);
    KeyWordStep(t, KeyC1, 8, [0xd6, 0xab, 0x76, 0xfe], [0xd6, 0xaa, 0x74, 0xfd], [0xb6, 0x92, 0xcf, 0x0b]);
  }

  /** NextKeyWord on the values of words 8 and 5. */
  lemma WordNext9(t: Table)
    ensures NextKeyWord(t, 9, [0xb6, 0x92, 0xcf, 0x0b], [0xd2, 0xaf, 0x72, 0xfa]) == [0x64, 0x3d, 0xbd, 0xf1]
  {}

  /** Word 9 of the expansion. */
  lemma Word9(t: Table)
    requires KeyWord(t, KeyC1, 8) == [0xb6, 0x92, 0xcf, 0x0b]
    requires KeyWord(t, KeyC1, 5) == [0xd2, 0xaf, 0x72, 0xfa]
    ensures KeyWord(t, KeyC1, 9) == [0x64, 0x3d, 0xbd, 0xf1]
  {
    WordNext9(t);
    KeyWordStep(t, KeyC1, 9, [0xb6, 0x92, 0xcf, 0x0b], [0xd2, 0xaf, 0x72, 0xfa], [0x64, 0x3d, 0xbd, 0xf1]);
  }

  /** NextKeyWord on the values of words 9 and 6. */
  lemma WordNext10(t: Table)
    ensures NextKeyWord(t, 10, [0x64, 0x3d, 0xbd, 0xf1], [0xda, 0xa6, 0x78, 0xf1]) == [0xbe, 0x9b, 0xc5, 0x00]
  {}

  /** Word 10 of the expansion. */
  lemma Word10(t: Table)
    requires KeyWord(t, KeyC1, 9) == [0x64, 0x3d, 0xbd, 0xf1]
    requires KeyWord(t, KeyC1, 6) == [0xda, 0xa6, 0x78, 0xf1]
    ensures KeyWord(t, KeyC1, 10) == [0xbe, 0x9b, 0xc5, 0x00]
  {
    WordNext10(t);
    KeyWordStep(t, KeyC1, 10, [0x64, 0x3d, 0xbd, 0xf1], [0xda, 0xa6, 0x78, 0xf1], [0xbe, 0x9b, 0xc5, 0x00]);
  }

  /** NextKeyWord on the values of words 10 and 7. */
  lemma WordNext11(t: Table)
    ensures NextKeyWord(t, 11, [0xbe, 0x9b, 0xc5, 0x00], [0xd6, 0xab, 0x76, 0xfe]) == [0x68, 0x30, 0xb3, 0xfe]
  {}

  /** Word 11 of the expansion. */
  lemma Word11(t: Table)
    requires KeyWord(t, KeyC1, 10) == [0xbe, 0x9b, 0xc5, 0x00]
    requires KeyWord(t, KeyC1, 7) == [0xd6, 0xab, 0x76, 0xfe]
    ensures KeyWord(t, KeyC1, 11) == [0x68, 0x30, 0xb3, 0xfe]
  {
    WordNext11(t);
    KeyWordStep(t, KeyC1, 11, [0xbe, 0x9b, 0xc5, 0x00], [0xd6, 0xab, 0x76, 0xfe], [0x68, 0x30, 0xb3, 0xfe]);
  }

  /** The S-box entries and the round constant word 12 needs. */
  lemma WordLookups12(t: Table)
    requires forall b: bv8 :: t[b] == FipsSBox(b)
    ensures t[0x68] == 0x45
    ensures t[0x30] == 0x04
    ensures t[0xb3] == 0x6d
    ensures t[0xfe] == 0xbb
    ensures RoundConstant(3) == 0x04
  {
    FipsAt(t, 0x68, 0x45);
    FipsAt(t, 0x30, 0x04);
    FipsAt(t, 0xb3, 0x6d);
    FipsAt(t, 0xfe, 0xbb);
    RoundConstantValues();
  }

  /** NextKeyWord on the values of words 11 and 8. */
  lemma WordNext12(t: Table)
    requires t[0x68] == 0x45
    requires t[0x30] == 0x04
    requires t[0xb3] == 0x6d
    requires t[0xfe] == 0xbb
    requires RoundConstant(3) == 0x04
    ensures NextKeyWord(t, 12, [0x68, 0x30, 0xb3, 0xfe], [0xb6, 0x92, 0xcf, 0x0b]) == [0xb6, 0xff, 0x74, 0x4e]
  {}

  /** Word 12 of the expansion. */
  lemma Word12(t: Table)
    requires forall b: bv8 :: t[b] == FipsSBox(b)
    requires KeyWord(t, KeyC1, 11) == [0x68, 0x30, 0xb3, 0xfe]
    requires KeyWord(t, KeyC1, 8) == [0xb6, 0x92, 0xcf, 0x0b]
    ensures KeyWord(t, KeyC1, 12) == [0xb6, 0xff, 0x74, 0x4e]
  {
    WordLookups12(t);
    WordNext12(t);
    KeyWordStep(t, KeyC1, 12, [0x68, 0x30, 0xb3, 0xfe], [0xb6, 0x92, 0xcf, 0x0b], [0xb6, 0xff, 0x74, 0x4e]);
  }

  /** NextKeyWord on the values of words 12 and 9. */
  lemma WordNext13(t: Table)
    ensures NextKeyWord(t, 13, [0xb6, 0xff, 0x74, 0x4e], [0x64, 0x3d, 0xbd, 0xf1]) == [0xd2, 0xc2, 0xc9, 0xbf]
  {}

  /** Word 13 of the expansion. */
  lemma Word13(t: Table)
    requires KeyWord(t, KeyC1, 12) == [0xb6, 0xff, 0x74, 0x4e]
    requires KeyWord(t, KeyC1, 9) == [0x64, 0x3d, 0xbd, 0xf1]
    ensures KeyWord(t, KeyC1, 13) == [0xd2, 0xc2, 0xc9, 0xbf]
  {
    WordNext13(t);
    KeyWordStep(t, KeyC1, 13, [0xb6, 0xff, 0x74, 0x4e], [0x64, 0x3d, 0xbd, 0xf1], [0xd2, 0xc2, 0xc9, 0xbf]);
  }

  /** NextKeyWord on the values of words 13 and 10. */
  lemma WordNext14(t: Table)
    ensures NextKeyWord(t, 14, [0xd2, 0xc2, 0xc9, 0xbf], [0xbe, 0x9b, 0xc5, 0x00]) == [0x6c, 0x59, 0x0c, 0xbf]
  {}

  /** Word 14 of the expansion. */
  lemma Word14(t: Table)
    requires KeyWord(t, KeyC1, 13) == [0xd2, 0xc2, 0xc9, 0xbf]
    requires KeyWord(t, KeyC1, 10) == [0xbe, 0x9b, 0xc5, 0x00]
    ensures KeyWord(t, KeyC1, 14) == [0x6c, 0x59, 0x0c, 0xbf]
  {
    WordNext14(t);
    KeyWordStep(t, KeyC1, 14, [0xd2, 0xc2, 0xc9, 0xbf], [0xbe, 0x9b, 0xc5, 0x00], [0x6c, 0x59, 0x0c, 0xbf]);
  }

  /** NextKeyWord on the values of words 14 and 11. */
  lemma WordNext15(t: Table)
    ensures NextKeyWord(t, 15, [0x6c, 0x59, 0x0c, 0xbf], [0x68, 0x30, 0xb3, 0xfe]) == [0x04, 0x69, 0xbf, 0x41]
  {}

  /** Word 15 of the expansion. */
  lemma Word15(t: Table)
    requires KeyWord(t, KeyC1, 14) == [0x6c, 0x59, 0x0c, 0xbf]
    requires KeyWord(t, KeyC1, 11) == [0x68, 0x30, 0xb3, 0xfe]
    ensures KeyWord(t, KeyC1, 15) == [0x04, 0x69, 0xbf, 0x41]
  {
    WordNext15(t);
    KeyWordStep(t, KeyC1, 15, [0x6c, 0x59, 0x0c, 0xbf], [0x68, 0x30, 0xb3, 0xfe], [0x04, 0x69, 0xbf, 0x41]);
  }

  /** The S-box entries and the round constant word 16 needs. */
  lemma WordLookups16(t: Table)
    requires forall b: bv8 :: t[b] == FipsSBox(b)
    ensures t[0x04] == 0xf2
    ensures t[0x69] == 0xf9
    ensures t[0xbf] == 0x08
    ensures t[0x41] == 0x83
    ensures RoundConstant(4) == 0x08
  {
    FipsAt(t, 0x04, 0xf2);
    FipsAt(t, 0x69, 0xf9);
    FipsAt(t, 0xbf, 0x08);
    FipsAt(t, 0x41, 0x83);
    RoundConstantValues();
  }

  /** NextKeyWord on the values of words 15 and 12. */
  lemma WordNext16(t: Table)
    requires t[0x04] == 0xf2
    requires t[0x69] == 0xf9
    requires t[0xbf] == 0x08
    requires t[0x41] == 0x83
    requires RoundConstant(4) == 0x08
    ensures NextKeyWord(t, 16, [0x04, 0x69, 0xbf, 0x41], [0xb6, 0xff, 0x74, 0x4e]) == [0x47, 0xf7, 0xf7, 0xbc]
  {}

  /** Word 16 of the expansion. */
  lemma Word16(t: Table)
    requires forall b: bv8 :: t[b] == FipsSBox(b)
    requires KeyWord(t, KeyC1, 15) == [0x04, 0x69, 0xbf, 0x41]
    requires KeyWord(t, KeyC1, 12) == [0xb6, 0xff, 0x74, 0x4e]
    ensures KeyWord(t, KeyC1, 16) == [0x47, 0xf7, 0xf7, 0xbc]
  {
    WordLookups16(t);
    WordNext16(t);
    KeyWordStep(t, KeyC1, 16, [0x04, 0x69, 0xbf, 0x41], [0xb6, 0xff, 0x74, 0x4e], [0x47, 0xf7, 0xf7, 0xbc]);
  }

  /** NextKeyWord on the values of words 16 and 13. */
  lemma WordNext17(t: Table)
    ensures NextKeyWord(t, 17, [0x47, 0xf7, 0xf7, 0xbc], [0xd2, 0xc2, 0xc9, 0xbf]) == [0x95, 0x35, 0x3e, 0x03]
  {}

  /** Word 17 of the expansion. */
  lemma Word17(t: Table)
    requires KeyWord(t, KeyC1, 16) == [0x47, 0xf7, 0xf7, 0xbc]
    requires KeyWord(t, KeyC1, 13) == [0xd2, 0xc2, 0xc9, 0xbf]
    ensures KeyWord(t, KeyC1, 17) == [0x95, 0x35, 0x3e, 0x03]
  {
    WordNext17(t);
    KeyWordStep(t, KeyC1, 17, [0x47, 0xf7, 0xf7, 0xbc], [0xd2, 0xc2, 0xc9, 0xbf], [0x95, 0x35, 0x3e, 0x03]);
  }

  /** NextKeyWord on the values of words 17 and 14. */
  lemma WordNext18(t: Table)
    ensures NextKeyWord(t, 18, [0x95, 0x35, 0x3e, 0x03], [0x6c, 0x59, 0x0c, 0xbf]) == [0xf9, 0x6c, 0x32, 0xbc]
  {}

  /** Word 18 of the expansion. */
  lemma Word18(t: Table)
    requires KeyWord(t, KeyC1, 17) == [0x95, 0x35, 0x3e, 0x03]
    requires KeyWord(t, KeyC1, 14) == [0x6c, 0x59, 0x0c, 0xbf]
    ensures KeyWord(t, KeyC1, 18) == [0xf9, 0x6c, 0x32, 0xbc]
  {
    WordNext18(t);
    KeyWordStep(t, KeyC1, 18, [0x95, 0x35, 0x3e, 0x03], [0x6c, 0x59, 0x0c, 0xbf], [0xf9, 0x6c, 0x32, 0xbc]);
  }

  /** NextKeyWord on the values of words 18 and 15. */
  lemma WordNext19(t: Table)
    ensures NextKeyWord(t, 19, [0xf9, 0x6c, 0x32, 0xbc], [0x04, 0x69, 0xbf, 0x41]) == [0xfd, 0x05, 0x8d, 0xfd]
  {}

  /** Word 19 of the expansion. */
  lemma Word19(t: Table)
    requires KeyWord(t, KeyC1, 18) == [0xf9, 0x6c, 0x32, 0xbc]
    requires KeyWord(t, KeyC1, 15) == [0x04, 0x69, 0xbf, 0x41]
    ensures KeyWord(t, KeyC1, 19) == [0xfd, 0x05, 0x8d, 0xfd]
  {
    WordNext19(t);
    KeyWordStep(t, KeyC1, 19, [0xf9, 0x6c, 0x32, 0xbc], [0x04, 0x69, 0xbf, 0x41], [0xfd, 0x05, 0x8d, 0xfd]);
  }

  /** The S-box entries and the round constant word 20 needs. */
  lemma WordLookups20(t: Table)
    requires forall b: bv8 :: t[b] == FipsSBox(b)
    ensures t[0xfd] == 0x54
    ensures t[0x05] == 0x6b
    ensures t[0x8d] == 0x5d
    ensures t[0xfd] == 0x54
    ensures RoundConstant(5) == 0x10
  {
    FipsAt(t, 0xfd, 0x54);
    FipsAt(t, 0x05, 0x6b);
    FipsAt(t, 0x8d, 0x5d);
    FipsAt(t, 0xfd, 0x54);
    RoundConstantValues();
  }

  /** NextKeyWord on the values of words 19 and 16. */
  lemma WordNext20(t: Table)
    requires t[0xfd] == 0x54
    requires t[0x05] == 0x6b
    requires t[0x8d] == 0x5d
    requires t[0xfd] == 0x54
    requires RoundConstant(5) == 0x10
    ensures NextKeyWord(t, 20, [0xfd, 0x05, 0x8d, 0xfd], [0x47, 0xf7, 0xf7, 0xbc]) == [0x3c, 0xaa, 0xa3, 0xe8]
  {}

  /** Word 20 of the expansion. */
  lemma Word20(t: Table)
    requires forall b: bv8 :: t[b] == FipsSBox(b)
    requires KeyWord(t, KeyC1, 19) == [0xfd, 0x05, 0x8d, 0xfd]
    requires KeyWord(t, KeyC1, 16) == [0x47, 0xf7, 0xf7, 0xbc]
    ensures KeyWord(t, KeyC1, 20) == [0x3c, 0xaa, 0xa3, 0xe8]
  {
    WordLookups20(t);
    WordNext20(t);
    KeyWordStep(t, KeyC1, 20, [0xfd, 0x05, 0x8d, 0xfd], [0x47, 0xf7, 0xf7, 0xbc], [0x3c, 0xaa, 0xa3, 0xe8]);
  }

  /** NextKeyWord on the values of words 20 and 17. */
  lemma WordNext21(t: Table)
    ensures NextKeyWord(t, 21, [0x3c, 0xaa, 0xa3, 0xe8], [0x95, 0x35, 0x3e, 0x03]) == [0xa9, 0x9f, 0x9d, 0xeb]
  {}

  /** Word 21 of the expansion. */
  lemma Word21(t: Table)
    requires KeyWord(t, KeyC1, 20) == [0x3c, 0xaa, 0xa3, 0xe8]
    requires KeyWord(t, KeyC1, 17) == [0x95, 0x35, 0x3e, 0x03]
    ensures KeyWord(t, KeyC1, 21) == [0xa9, 0x9f, 0x9d, 0xeb]
  {
    WordNext21(t);
    KeyWordStep(t, KeyC1, 21, [0x3c, 0xaa, 0xa3, 0xe8], [0x95, 0x35, 0x3e, 0x03], [0xa9, 0x9f, 0x9d, 0xeb]);
  }

  /** NextKeyWord on the values of words 21 and 18. */
  lemma WordNext22(t: Table)
    ensures NextKeyWord(t, 22, [0xa9, 0x9f, 0x9d, 0xeb], [0xf9, 0x6c, 0x32, 0xbc]) == [0x50, 0xf3, 0xaf, 0x57]
  {}

  /** Word 22 of the expansion. */
  lemma Word22(t: Table)
    requires KeyWord(t, KeyC1, 21) == [0xa9, 0x9f, 0x9d, 0xeb]
    requires KeyWord(t, KeyC1, 18) == [0xf9, 0x6c, 0x32, 0xbc]
    ensures KeyWord(t, KeyC1, 22) == [0x50, 0xf3, 0xaf, 0x57]
  {
    WordNext22(t);
    KeyWordStep(t, KeyC1, 22, [0xa9, 0x9f, 0x9d, 0xeb], [0xf9, 0x6c, 0x32, 0xbc], [0x50, 0xf3, 0xaf, 0x57]);
  }

  /** NextKeyWord on the values of words 22 and 19. */
  lemma WordNext23(t: Table)
    ensures NextKeyWord(t, 23, [0x50, 0xf3, 0xaf, 0x57], [0xfd, 0x05, 0x8d, 0xfd]) == [0xad, 0xf6, 0x22, 0xaa]
  {}

  /** Word 23 of the expansion. */
  lemma Word23(t: Table)
    requires KeyWord(t, KeyC1, 22) == [0x50, 0xf3, 0xaf, 0x57]
    requires KeyWord(t, KeyC1, 19) == [0xfd, 0x05, 0x8d, 0xfd]
    ensures KeyWord(t, KeyC1, 23) == [0xad, 0xf6, 0x22, 0xaa]
  {
    WordNext23(t);
    KeyWordStep(t, KeyC1, 23, [0x50, 0xf3, 0xaf, 0x57], [0xfd, 0x05, 0x8d, 0xfd], [0xad, 0xf6, 0x22, 0xaa]);
  }

  /** The S-box entries and the round constant word 24 needs. */
  lemma WordLookups24(t: Table)
    requires forall b: bv8 :: t[b] == FipsSBox(b)
    ensures t[0xad] == 0x95
    ensures t[0xf6] == 0x42
    ensures t[0x22] == 0x93
    ensures t[0xaa] == 0xac
    ensures RoundConstant(6) == 0x20
  {
    FipsAt(t, 0xad, 0x95);
    FipsAt(t, 0xf6, 0x42);
    FipsAt(t, 0x22, 0x93);
    FipsAt(t, 0xaa, 0xac);
    RoundConstantValues();
  }

  /** NextKeyWord on the values of words 23 and 20. */
  lemma WordNext24(t: Table)
    requires t[0xad] == 0x95
    requires t[0xf6] == 0x42
    requires t[0x22] == 0x93
    requires t[0xaa] == 0xac
    requires RoundConstant(6) == 0x20
    ensures NextKeyWord(t, 24, [0xad, 0xf6, 0x22, 0xaa], [0x3c, 0xaa, 0xa3, 0xe8]) == [0x5e, 0x39, 0x0f, 0x7d]
  {}

  /** Word 24 of the expansion. */
  lemma Word24(t: Table)
    requires forall b: bv8 :: t[b] == FipsSBox(b)
    requires KeyWord(t, KeyC1, 23) == [0xad, 0xf6, 0x22, 0xaa]
    requires KeyWord(t, KeyC1, 20) == [0x3c, 0xaa, 0xa3, 0xe8]
    ensures KeyWord(t, KeyC1, 24) == [0x5e, 0x39, 0x0f, 0x7d]
  {
    WordLookups24(t);
    WordNext24(t);
    KeyWordStep(t, KeyC1, 24, [0xad, 0xf6, 0x22, 0xaa], [0x3c, 0xaa, 0xa3, 0xe8], [0x5e, 0x39, 0x0f, 0x7d]);
  }

  /** NextKeyWord on the values of words 24 and 21. */
  lemma WordNext25(t: Table)
    ensures NextKeyWord(t, 25, [0x5e, 0x39, 0x0f, 0x7d], [0xa9, 0x9f, 0x9d, 0xeb]) == [0xf7, 0xa6, 0x92, 0x96]
  {}

  /** Word 25 of the expansion. */
  lemma Word25(t: Table)
    requires KeyWord(t, KeyC1, 24) == [0x5e, 0x39, 0x0f, 0x7d]
    requires KeyWord(t, KeyC1, 21) == [0xa9, 0x9f, 0x9d, 0xeb]
    ensures KeyWord(t, KeyC1, 25) == [0xf7, 0xa6, 0x92, 0x96]
  {
    WordNext25(t);
    KeyWordStep(t, KeyC1, 25, [0x5e, 0x39, 0x0f, 0x7d], [0xa9, 0x9f, 0x9d, 0xeb], [0xf7, 0xa6, 0x92, 0x96]);
  }

  /** NextKeyWord on the values of words 25 and 22. */
  lemma WordNext26(t: Table)
    ensures NextKeyWord(t, 26, [0xf7, 0xa6, 0x92, 0x96], [0x50, 0xf3, 0xaf, 0x57]) == [0xa7, 0x55, 0x3d, 0xc1]
  {}

  /** Word 26 of the expansion. */
  lemma Word26(t: Table)
    requires KeyWord(t, KeyC1, 25) == [0xf7, 0xa6, 0x92, 0x96]
    requires KeyWord(t, KeyC1, 22) == [0x50, 0xf3, 0xaf, 0x57]
    ensures KeyWord(t, KeyC1, 26) == [0xa7, 0x55, 0x3d, 0xc1]
  {
    WordNext26(t);
    KeyWordStep(t, KeyC1, 26, [0xf7, 0xa6, 0x92, 0x96], [0x50, 0xf3, 0xaf, 0x57], [0xa7, 0x55, 0x3d, 0xc1]);
  }

  /** NextKeyWord on the values of words 26 and 23. */
  lemma WordNext27(t: Table)
    ensures NextKeyWord(t, 27, [0xa7, 0x55, 0x3d, 0xc1], [0xad, 0xf6, 0x22, 0xaa]) == [0x0a, 0xa3, 0x1f, 0x6b]
  {}

  /** Word 27 of the expansion. */
  lemma Word27(t: Table)
    requires KeyWord(t, KeyC1, 26) == [0xa7, 0x55, 0x3d, 0xc1]
    requires KeyWord(t, KeyC1, 23) == [0xad, 0xf6, 0x22, 0xaa]
    ensures KeyWord(t, KeyC1, 27) == [0x0a, 0xa3, 0x1f, 0x6b]
  {
    WordNext27(t);
    KeyWordStep(t, KeyC1, 27, [0xa7, 0x55, 0x3d, 0xc1], [0xad, 0xf6, 0x22, 0xaa], [0x0a, 0xa3, 0x1f, 0x6b]);
  }

  /** The S-box entries and the round constant word 28 needs. */
  lemma WordLookups28(t: Table)
    requires forall b: bv8 :: t[b] == FipsSBox(b)
    ensures t[0x0a] == 0x67
    ensures t[0xa3] == 0x0a
    ensures t[0x1f] == 0xc0
    ensures t[0x6b] == 0x7f
    ensures RoundConstant(7) == 0x40
  {
    FipsAt(t, 0x0a, 0x67);
    FipsAt(t, 0xa3, 0x0a);
    FipsAt(t, 0x1f, 0xc0);
    FipsAt(t, 0x6b, 0x7f);
    RoundConstantValues();
  }

  /** NextKeyWord on the values of words 27 and 24. */
  lemma WordNext28(t: Table)
    requires t[0x0a] == 0x67
    requires t[0xa3] == 0x0a
    requires t[0x1f] == 0xc0
    requires t[0x6b] == 0x7f
    requires RoundConstant(7) == 0x40
    ensures NextKeyWord(t, 28, [0x0a, 0xa3, 0x1f, 0x6b], [0x5e, 0x39, 0x0f, 0x7d]) == [0x14, 0xf9, 0x70, 0x1a]
  {}

  /** Word 28 of the expansion. */
  lemma Word28(t: Table)
    requires forall b: bv8 :: t[b] == FipsSBox(b)
    requires KeyWord(t, KeyC1, 27) == [0x0a, 0xa3, 0x1f, 0x6b]
    requires KeyWord(t, KeyC1, 24) == [0x5e, 0x39, 0x0f, 0x7d]
    ensures KeyWord(t, KeyC1, 28) == [0x14, 0xf9, 0x70, 0x1a]
  {
    WordLookups28(t);
    WordNext28(t);
    KeyWordStep(t, KeyC1, 28, [0x0a, 0xa3, 0x1f, 0x6b], [0x5e, 0x39, 0x0f, 0x7d], [0x14, 0xf9, 0x70, 0x1a]);
  }

  /** NextKeyWord on the values of words 28 and 25. */
  lemma WordNext29(t: Table)
    ensures NextKeyWord(t, 29, [0x14, 0xf9, 0x70, 0x1a], [0xf7, 0xa6, 0x92, 0x96]) == [0xe3, 0x5f, 0xe2, 0x8c]
  {}

  /** Word 29 of the expansion. */
  lemma Word29(t: Table)
    requires KeyWord(t, KeyC1, 28) == [0x14, 0xf9, 0x70, 0x1a]
    requires KeyWord(t, KeyC1, 25) == [0xf7, 0xa6, 0x92, 0x96]
    ensures KeyWord(t, KeyC1, 29) == [0xe3, 0x5f, 0xe2, 0x8c]
  {
    WordNext29(t);
    KeyWordStep(t, KeyC1, 29, [0x14, 0xf9, 0x70, 0x1a], [0xf7, 0xa6, 0x92, 0x96], [0xe3, 0x5f, 0xe2, 0x8c]);
  }

  /** NextKeyWord on the values of words 29 and 26. */
  lemma WordNext30(t: Table)
    ensures NextKeyWord(t, 30, [0xe3, 0x5f, 0xe2, 0x8c], [0xa7, 0x55, 0x3d, 0xc1]) == [0x44, 0x0a, 0xdf, 0x4d]
  {}

  /** Word 30 of the expansion. */
  lemma Word30(t: Table)
    requires KeyWord(t, KeyC1, 29) == [0xe3, 0x5f, 0xe2, 0x8c]
    requires KeyWord(t, KeyC1, 26) == [0xa7, 0x55, 0x3d, 0xc1]
    ensures KeyWord(t, KeyC1, 30) == [0x44, 0x0a, 0xdf, 0x4d]
  {
    WordNext30(t);
    KeyWordStep(t, KeyC1, 30, [0xe3, 0x5f, 0xe2, 0x8c], [0xa7, 0x55, 0x3d, 0xc1], [0x44, 0x0a, 0xdf, 0x4d]);
  }

  /** NextKeyWord on the values of words 30 and 27. */
  lemma WordNext31(t: Table)
    ensures NextKeyWord(t, 31, [0x44, 0x0a, 0xdf, 0x4d], [0x0a, 0xa3, 0x1f, 0x6b]) == [0x4e, 0xa9, 0xc0, 0x26]
  {}

  /** Word 31 of the expansion. */
  lemma Word31(t: Table)
    requires KeyWord(t, KeyC1, 30) == [0x44, 0x0a, 0xdf, 0x4d]
    requires KeyWord(t, KeyC1, 27) == [0x0a, 0xa3, 0x1f, 0x6b]
    ensures KeyWord(t, KeyC1, 31) == [0x4e, 0xa9, 0xc0, 0x26]
  {
    WordNext31(t);
    KeyWordStep(t, KeyC1, 31, [0x44, 0x0a, 0xdf, 0x4d], [0x0a, 0xa3, 0x1f, 0x6b], [0x4e, 0xa9, 0xc0, 0x26]);
  }

  /** The S-box entries and the round constant word 32 needs. */
  lemma WordLookups32(t: Table)
    requires forall b: bv8 :: t[b] == FipsSBox(b)
    ensures t[0x4e] == 0x2f
    ensures t[0xa9] == 0xd3
    ensures t[0xc0] == 0xba
    ensures t[0x26] == 0xf7
    ensures RoundConstant(8) == 0x80
  {
    FipsAt(t, 0x4e, 0x2f);
    FipsAt(t, 0xa9, 0xd3);
    FipsAt(t, 0xc0, 0xba);
    FipsAt(t, 0x26, 0xf7);
    RoundConstantValues();
  }

  /** NextKeyWord on the values of words 31 and 28. */
  lemma WordNext32(t: Table)
    requires t[0x4e] == 0x2f
    requires t[0xa9] == 0xd3
    requires t[0xc0] == 0xba
    requires t[0x26] == 0xf7
    requires RoundConstant(8) == 0x80
    ensures NextKeyWord(t, 32, [0x4e, 0xa9, 0xc0, 0x26], [0x14, 0xf9, 0x70, 0x1a]) == [0x47, 0x43, 0x87, 0x35]
  {}

  /** Word 32 of the expansion. */
  lemma Word32(t: Table)
    requires forall b: bv8 :: t[b] == FipsSBox(b)
    requires KeyWord(t, KeyC1, 31) == [0x4e, 0xa9, 0xc0, 0x26]
    requires KeyWord(t, KeyC1, 28) == [0x14, 0xf9, 0x70, 0x1a]
    ensures KeyWord(t, KeyC1, 32) == [0x47, 0x43, 0x87, 0x35]
  {
    WordLookups32(t);
    WordNext32(t);
    KeyWordStep(t, KeyC1, 32, [0x4e, 0xa9, 0xc0, 0x26], [0x14, 0xf9, 0x70, 0x1a], [0x47, 0x43, 0x87, 0x35]);
  }

  /** NextKeyWord on the values of words 32 and 29. */
  lemma WordNext33(t: Table)
    ensures NextKeyWord(t, 33, [0x47, 0x43, 0x87, 0x35], [0xe3, 0x5f, 0xe2, 0x8c]) == [0xa4, 0x1c, 0x65, 0xb9]
  {}

  /** Word 33 of the expansion. */
  lemma Word33(t: Table)
    requires KeyWord(t, KeyC1, 32) == [0x47, 0x43, 0x87, 0x35]
    requires KeyWord(t, KeyC1, 29) == [0xe3, 0x5f, 0xe2, 0x8c]
    ensures KeyWord(t, KeyC1, 33) == [0xa4, 0x1c, 0x65, 0xb9]
  {
    WordNext33(t);
    KeyWordStep(t, KeyC1, 33, [0x47, 0x43, 0x87, 0x35], [0xe3, 0x5f, 0xe2, 0x8c], [0xa4, 0x1c, 0x65, 0xb9]);
  }

  /** NextKeyWord on the values of words 33 and 30. */
  lemma WordNext34(t: Table)
    ensures NextKeyWord(t, 34, [0xa4, 0x1c, 0x65, 0xb9], [0x44, 0x0a, 0xdf, 0x4d]) == [0xe0, 0x16, 0xba, 0xf4]
  {}

  /** Word 34 of the expansion. */
  lemma Word34(t: Table)
    requires KeyWord(t, KeyC1, 33) == [0xa4, 0x1c, 0x65, 0xb9]
    requires KeyWord(t, KeyC1, 30) == [0x44, 0x0a, 0xdf, 0x4d]
    ensures KeyWord(t, KeyC1, 34) == [0xe0, 0x16, 0xba, 0xf4]
  {
    WordNext34(t);
    KeyWordStep(t, KeyC1, 34, [0xa4, 0x1c, 0x65, 0xb9], [0x44, 0x0a, 0xdf, 0x4d], [0xe0, 0x16, 0xba, 0xf4]);
  }

  /** NextKeyWord on the values of words 34 and 31. */
  lemma WordNext35(t: Table)
    ensures NextKeyWord(t, 35, [0xe0, 0x16, 0xba, 0xf4], [0x4e, 0xa9, 0xc0, 0x26]) == [0xae, 0xbf, 0x7a, 0xd2]
  {}

  /** Word 35 of the expansion. */
  lemma Word35(t: Table)
    requires KeyWord(t, KeyC1, 34) == [0xe0, 0x16, 0xba, 0xf4]
    requires KeyWord(t, KeyC1, 31) == [0x4e, 0xa9, 0xc0, 0x26]
    ensures KeyWord(t, KeyC1, 35) == [0xae, 0xbf, 0x7a, 0xd2]
  {
    WordNext35(t);
    KeyWordStep(t, KeyC1, 35, [0xe0, 0x16, 0xba, 0xf4], [0x4e, 0xa9, 0xc0, 0x26], [0xae, 0xbf, 0x7a, 0xd2]);
  }

  /** The S-box entries and the round constant word 36 needs. */
  lemma WordLookups36(t: Table)
    requires forall b: bv8 :: t[b] == FipsSBox(b)
    ensures t[0xae] == 0xe4
    ensures t[0xbf] == 0x08
    ensures t[0x7a] == 0xda
    ensures t[0xd2] == 0xb5
    ensures RoundConstant(9) == 0x1b
  {
    FipsAt(t, 0xae, 0xe4);
    FipsAt(t, 0xbf, 0x08);
    FipsAt(t, 0x7a, 0xda);
    FipsAt(t, 0xd2, 0xb5);
    RoundConstantValues();
  }

  /** NextKeyWord on the values of words 35 and 32. */
  lemma WordNext36(t: Table)
    requires t[0xae] == 0xe4
    requires t[0xbf] == 0x08
    requires t[0x7a] == 0xda
    requires t[0xd2] == 0xb5
    requires RoundConstant(9) == 0x1b
    ensures NextKeyWord(t, 36, [0xae, 0xbf, 0x7a, 0xd2], [0x47, 0x43, 0x87, 0x35]) == [0x54, 0x99, 0x32, 0xd1]
  {}

  /** Word 36 of the expansion. */
  lemma Word36(t: Table)
    requires forall b: bv8 :: t[b] == FipsSBox(b)
    requires KeyWord(t, KeyC1, 35) == [0xae, 0xbf, 0x7a, 0xd2]
    requires KeyWord(t, KeyC1, 32) == [0x47, 0x43, 0x87, 0x35]
    ensures KeyWord(t, KeyC1, 36) == [0x54, 0x99, 0x32, 0xd1]
  {
    WordLookups36(t);
    WordNext36(t);
    KeyWordStep(t, KeyC1, 36, [0xae, 0xbf, 0x7a, 0xd2], [0x47, 0x43, 0x87, 0x35], [0x54, 0x99, 0x32, 0xd1]);
  }

  /** NextKeyWord on the values of words 36 and 33. */
  lemma WordNext37(t: Table)
    ensures NextKeyWord(t, 37, [0x54, 0x99, 0x32, 0xd1], [0xa4, 0x1c, 0x65, 0xb9]) == [0xf0, 0x85, 0x57, 0x68]
  {}

  /** Word 37 of the expansion. */
  lemma Word37(t: Table)
    requires KeyWord(t, KeyC1, 36) == [0x54, 0x99, 0x32, 0xd1]
    requires KeyWord(t, KeyC1, 33) == [0xa4, 0x1c, 0x65, 0xb9]
    ensures KeyWord(t, KeyC1, 37) == [0xf0, 0x85, 0x57, 0x68]
  {
    WordNext37(t);
    KeyWordStep(t, KeyC1, 37, [0x54, 0x99, 0x32, 0xd1], [0xa4, 0x1c, 0x65, 0xb9], [0xf0, 0x85, 0x57, 0x68]);
  }

  /** NextKeyWord on the values of words 37 and 34. */
  lemma WordNext38(t: Table)
    ensures NextKeyWord(t, 38, [0xf0, 0x85, 0x57, 0x68], [0xe0, 0x16, 0xba, 0xf4]) == [0x10, 0x93, 0xed, 0x9c]
  {}

  /** Word 38 of the expansion. */
  lemma Word38(t: Table)
    requires KeyWord(t, KeyC1, 37) == [0xf0, 0x85, 0x57, 0x68]
    requires KeyWord(t, KeyC1, 34) == [0xe0, 0x16, 0xba, 0xf4]
    ensures KeyWord(t, KeyC1, 38) == [0x10, 0x93, 0xed, 0x9c]
  {
    WordNext38(t);
    KeyWordStep(t, KeyC1, 38, [0xf0, 0x85, 0x57, 0x68], [0xe0, 0x16, 0xba, 0xf4], [0x10, 0x93, 0xed, 0x9c]);
  }

  /** NextKeyWord on the values of words 38 and 35. */
  lemma WordNext39(t: Table)
    ensures NextKeyWord(t, 39, [0x10, 0x93, 0xed, 0x9c], [0xae, 0xbf, 0x7a, 0xd2]) == [0xbe, 0x2c, 0x97, 0x4e]
  {}

  /** Word 39 of the expansion. */
  lemma Word39(t: Table)
    requires KeyWord(t, KeyC1, 38) == [0x10, 0x93, 0xed, 0x9c]
    requires KeyWord(t, KeyC1, 35) == [0xae, 0xbf, 0x7a, 0xd2]
    ensures KeyWord(t, KeyC1, 39) == [0xbe, 0x2c, 0x97, 0x4e]
  {
    WordNext39(t);
    KeyWordStep(t, KeyC1, 39, [0x10, 0x93, 0xed, 0x9c], [0xae, 0xbf, 0x7a, 0xd2], [0xbe, 0x2c, 0x97, 0x4e]);
  }

  /** The S-box entries and the round constant word 40 needs. */
  lemma WordLookups40(t: Table)
    requires forall b: bv8 :: t[b] == FipsSBox(b)
    ensures t[0xbe] == 0xae
    ensures t[0x2c] == 0x71
    ensures t[0x97] == 0x88
    ensures t[0x4e] == 0x2f
    ensures RoundConstant(10) == 0x36
  {
    FipsAt(t, 0xbe, 0xae);
    FipsAt(t, 0x2c, 0x71);
    FipsAt(t, 0x97, 0x88);
    FipsAt(t, 0x4e, 0x2f);
    RoundConstantValues();
  }

  /** NextKeyWord on the values of words 39 and 36. */
  lemma WordNext40(t: Table)
    requires t[0xbe] == 0xae
    requires t[0x2c] == 0x71
    requires t[0x97] == 0x88
    requires t[0x4e] == 0x2f
    requires RoundConstant(10) == 0x36
    ensures NextKeyWord(t, 40, [0xbe, 0x2c, 0x97, 0x4e], [0x54, 0x99, 0x32, 0xd1]) == [0x13, 0x11, 0x1d, 0x7f]
  {}

  /** Word 40 of the expansion. */
  lemma Word40(t: Table)
    requires forall b: bv8 :: t[b] == FipsSBox(b)
    requires KeyWord(t, KeyC1, 39) == [0xbe, 0x2c, 0x97, 0x4e]
    requires KeyWord(t, KeyC1, 36) == [0x54, 0x99, 0x32, 0xd1]
    ensures KeyWord(t, KeyC1, 40) == [0x13, 0x11, 0x1d, 0x7f]
  {
    WordLookups40(t);
    WordNext40(t);
    KeyWordStep(t, KeyC1, 40, [0xbe, 0x2c, 0x97, 0x4e], [0x54, 0x99, 0x32, 0xd1], [0x13, 0x11, 0x1d, 0x7f]);
  }

  /** NextKeyWord on the values of words 40 and 37. */
  lemma WordNext41(t: Table)
    ensures NextKeyWord(t, 41, [0x13, 0x11, 0x1d, 0x7f], [0xf0, 0x85, 0x57, 0x68]) == [0xe3, 0x94, 0x4a, 0x17]
  {}

  /** Word 41 of the expansion. */
  lemma Word41(t: Table)
    requires KeyWord(t, KeyC1, 40) == [0x13, 0x11, 0x1d, 0x7f]
    requires KeyWord(t, KeyC1, 37) == [0xf0, 0x85, 0x57, 0x68]
    ensures KeyWord(t, KeyC1, 41) == [0xe3, 0x94, 0x4a, 0x17]
  {
    WordNext41(t);
    KeyWordStep(t, KeyC1, 41, [0x13, 0x11, 0x1d, 0x7f], [0xf0, 0x85, 0x57, 0x68], [0xe3, 0x94, 0x4a, 0x17]);
  }

  /** NextKeyWord on the values of words 41 and 38. */
  lemma WordNext42(t: Table)
    ensures NextKeyWord(t, 42, [0xe3, 0x94, 0x4a, 0x17], [0x10, 0x93, 0xed, 0x9c]) == [0xf3, 0x07, 0xa7, 0x8b]
  {}

  /** Word 42 of the expansion. */
  lemma Word42(t: Table)
    requires KeyWord(t, KeyC1, 41) == [0xe3, 0x94, 0x4a, 0x17]
    requires KeyWord(t, KeyC1, 38) == [0x10, 0x93, 0xed, 0x9c]
    ensures KeyWord(t, KeyC1, 42) == [0xf3, 0x07, 0xa7, 0x8b]
  {
    WordNext42(t);
    KeyWordStep(t, KeyC1, 42, [0xe3, 0x94, 0x4a, 0x17], [0x10, 0x93, 0xed, 0x9c], [0xf3, 0x07, 0xa7, 0x8b]);
  }

  /** NextKeyWord on the values of words 42 and 39. */
  lemma WordNext43(t: Table)
    ensures NextKeyWord(t, 43, [0xf3, 0x07, 0xa7, 0x8b], [0xbe, 0x2c, 0x97, 0x4e]) == [0x4d, 0x2b, 0x30, 0xc5]
  {}

  /** Word 43 of the expansion. */
  lemma Word43(t: Table)
    requires KeyWord(t, KeyC1, 42) == [0xf3, 0x07, 0xa7, 0x8b]
    requires KeyWord(t, KeyC1, 39) == [0xbe, 0x2c, 0x97, 0x4e]
    ensures KeyWord(t, KeyC1, 43) == [0x4d, 0x2b, 0x30, 0xc5]
  {
    WordNext43(t);
    KeyWordStep(t, KeyC1, 43, [0xf3, 0x07, 0xa7, 0x8b], [0xbe, 0x2c, 0x97, 0x4e], [0x4d, 0x2b, 0x30, 0xc5]);
  }

  /** Words 4..7 (round key 1) from the four before them. */
  lemma KeyRound1(t: Table)
    requires forall b: bv8 :: t[b] == FipsSBox(b)
    requires KeyWord(t, KeyC1, 0) == [0x00, 0x01, 0x02, 0x03]
    requires KeyWord(t, KeyC1, 1) == [0x04, 0x05, 0x06, 0x07]
    requires KeyWord(t, KeyC1, 2) == [0x08, 0x09, 0x0a, 0x0b]
    requires KeyWord(t, KeyC1, 3) == [0x0c, 0x0d, 0x0e, 0x0f]
    ensures KeyWord(t, KeyC1, 4) == [0xd6, 0xaa, 0x74, 0xfd]
    ensures KeyWord(t, KeyC1, 5) == [0xd2, 0xaf, 0x72, 0xfa]
    ensures KeyWord(t, KeyC1, 6) == [0xda, 0xa6, 0x78, 0xf1]
    ensures KeyWord(t, KeyC1, 7) == [0xd6, 0xab, 0x76, 0xfe]
  {
    Word4(t);
    Word5(t);
    Word6(t);
    Word7(t);
  }

  /** Words 8..11 (round key 2) from the four before them. */
  lemma KeyRound2(t: Table)
    requires forall b: bv8 :: t[b] == FipsSBox(b)
    requires KeyWord(t, KeyC1, 4) == [0xd6, 0xaa, 0x74, 0xfd]
    requires KeyWord(t, KeyC1, 5) == [0xd2, 0xaf, 0x72, 0xfa]
    requires KeyWord(t, KeyC1, 6) == [0xda, 0xa6, 0x78, 0xf1]
    requires KeyWord(t, KeyC1, 7) == [0xd6, 0xab, 0x76, 0xfe]
    ensures KeyWord(t, KeyC1, 8) == [0xb6, 0x92, 0xcf, 0x0b]
    ensures KeyWord(t, KeyC1, 9) == [0x64, 0x3d, 0xbd, 0xf1]
    ensures KeyWord(t, KeyC1, 10) == [0xbe, 0x9b, 0xc5, 0x00]
    ensures KeyWord(t, KeyC1, 11) == [0x68, 0x30, 0xb3, 0xfe]
  {
    Word8(t);
    Word9(t);
    Word10(t);
    Word11(t);
  }

  /** Words 12..15 (round key 3) from the four before them. */
  lemma KeyRound3(t: Table)
    requires forall b: bv8 :: t[b] == FipsSBox(b)
    requires KeyWord(t, KeyC1, 8) == [0xb6, 0x92, 0xcf, 0x0b]
    requires KeyWord(t, KeyC1, 9) == [0x64, 0x3d, 0xbd, 0xf1]
    requires KeyWord(t, KeyC1, 10) == [0xbe, 0x9b, 0xc5, 0x00]
    requires KeyWord(t, KeyC1, 11) == [0x68, 0x30, 0xb3, 0xfe]
    ensures KeyWord(t, KeyC1, 12) == [0xb6, 0xff, 0x74, 0x4e]
    ensures KeyWord(t, KeyC1, 13) == [0xd2, 0xc2, 0xc9, 0xbf]
    ensures KeyWord(t, KeyC1, 14) == [0x6c, 0x59, 0x0c, 0xbf]
    ensures KeyWord(t, KeyC1, 15) == [0x04, 0x69, 0xbf, 0x41]
  {
    Word12(t);
    Word13(t);
    Word14(t);
    Word15(t);
  }

  /** Words 16..19 (round key 4) from the four before them. */
  lemma KeyRound4(t: Table)
    requires forall b: bv8 :: t[b] == FipsSBox(b)
    requires KeyWord(t, KeyC1, 12) == [0xb6, 0xff, 0x74, 0x4e]
    requires KeyWord(t, KeyC1, 13) == [0xd2, 0xc2, 0xc9, 0xbf]
    requires KeyWord(t, KeyC1, 14) == [0x6c, 0x59, 0x0c, 0xbf]
    requires KeyWord(t, KeyC1, 15) == [0x04, 0x69, 0xbf, 0x41]
    ensures KeyWord(t, KeyC1, 16) == [0x47, 0xf7, 0xf7, 0xbc]
    ensures KeyWord(t, KeyC1, 17) == [0x95, 0x35, 0x3e, 0x03]
    ensures KeyWord(t, KeyC1, 18) == [0xf9, 0x6c, 0x32, 0xbc]
    ensures KeyWord(t, KeyC1, 19) == [0xfd, 0x05, 0x8d, 0xfd]
  {
    Word16(t);
    Word17(t);
    Word18(t);
    Word19(t);
  }

  /** Words 20..23 (round key 5) from the four before them. */
  lemma KeyRound5(t: Table)
    requires forall b: bv8 :: t[b] == FipsSBox(b)
    requires KeyWord(t, KeyC1, 16) == [0x47, 0xf7, 0xf7, 0xbc]
    requires KeyWord(t, KeyC1, 17) == [0x95, 0x35, 0x3e, 0x03]
    requires KeyWord(t, KeyC1, 18) == [0xf9, 0x6c, 0x32, 0xbc]
    requires KeyWord(t, KeyC1, 19) == [0xfd, 0x05, 0x8d, 0xfd]
    ensures KeyWord(t, KeyC1, 20) == [0x3c, 0xaa, 0xa3, 0xe8]
    ensures KeyWord(t, KeyC1, 21) == [0xa9, 0x9f, 0x9d, 0xeb]
    ensures KeyWord(t, KeyC1, 22) == [0x50, 0xf3, 0xaf, 0x57]
    ensures KeyWord(t, KeyC1, 23) == [0xad, 0xf6, 0x22, 0xaa]
  {
    Word20(t);
    Word21(t);
    Word22(t);
    Word23(t);
  }

  /** Words 24..27 (round key 6) from the four before them. */
  lemma KeyRound6(t: Table)
    requires forall b: bv8 :: t[b] == FipsSBox(b)
    requires KeyWord(t, KeyC1, 20) == [0x3c, 0xaa, 0xa3, 0xe8]
    requires KeyWord(t, KeyC1, 21) == [0xa9, 0x9f, 0x9d, 0xeb]
    requires KeyWord(t, KeyC1, 22) == [0x50, 0xf3, 0xaf, 0x57]
    requires KeyWord(t, KeyC1, 23) == [0xad, 0xf6, 0x22, 0xaa]
    ensures KeyWord(t, KeyC1, 24) == [0x5e, 0x39, 0x0f, 0x7d]
    ensures KeyWord(t, KeyC1, 25) == [0xf7, 0xa6, 0x92, 0x96]
    ensures KeyWord(t, KeyC1, 26) == [0xa7, 0x55, 0x3d, 0xc1]
    ensures KeyWord(t, KeyC1, 27) == [0x0a, 0xa3, 0x1f, 0x6b]
  {
    Word24(t);
    Word25(t);
    Word26(t);
    Word27(t);
  }

  /** Words 28..31 (round key 7) from the four before them. */
  lemma KeyRound7(t: Table)
    requires forall b: bv8 :: t[b] == FipsSBox(b)
    requires KeyWord(t, KeyC1, 24) == [0x5e, 0x39, 0x0f, 0x7d]
    requires KeyWord(t, KeyC1, 25) == [0xf7, 0xa6, 0x92, 0x96]
    requires KeyWord(t, KeyC1, 26) == [0xa7, 0x55, 0x3d, 0xc1]
    requires KeyWord(t, KeyC1, 27) == [0x0a, 0xa3, 0x1f, 0x6b]
    ensures KeyWord(t, KeyC1, 28) == [0x14, 0xf9, 0x70, 0x1a]
    ensures KeyWord(t, KeyC1, 29) == [0xe3, 0x5f, 0xe2, 0x8c]
    ensures KeyWord(t, KeyC1, 30) == [0x44, 0x0a, 0xdf, 0x4d]
    ensures KeyWord(t, KeyC1, 31) == [0x4e, 0xa9, 0xc0, 0x26]
  {
    Word28(t);
    Word29(t);
    Word30(t);
    Word31(t);
  }

  /** Words 32..35 (round key 8) from the four before them. */
  lemma KeyRound8(t: Table)
    requires forall b: bv8 :: t[b] == FipsSBox(b)
    requires KeyWord(t, KeyC1, 28) == [0x14, 0xf9, 0x70, 0x1a]
    requires KeyWord(t, KeyC1, 29) == [0xe3, 0x5f, 0xe2, 0x8c]
    requires KeyWord(t, KeyC1, 30) == [0x44, 0x0a, 0xdf, 0x4d]
    requires KeyWord(t, KeyC1, 31) == [0x4e, 0xa9, 0xc0, 0x26]
    ensures KeyWord(t, KeyC1, 32) == [0x47, 0x43, 0x87, 0x35]
    ensures KeyWord(t, KeyC1, 33) == [0xa4, 0x1c, 0x65, 0xb9]
    ensures KeyWord(t, KeyC1, 34) == [0xe0, 0x16, 0xba, 0xf4]
    ensures KeyWord(t, KeyC1, 35) == [0xae, 0xbf, 0x7a, 0xd2]
  {
    Word32(t);
    Word33(t);
    Word34(t);
    Word35(t);
  }

  /** Words 36..39 (round key 9) from the four before them. */
  lemma KeyRound9(t: Table)
    requires forall b: bv8 :: t[b] == FipsSBox(b)
    requires KeyWord(t, KeyC1, 32) == [0x47, 0x43, 0x87, 0x35]
    requires KeyWord(t, KeyC1, 33) == [0xa4, 0x1c, 0x65, 0xb9]
    requires KeyWord(t, KeyC1, 34) == [0xe0, 0x16, 0xba, 0xf4]
    requires KeyWord(t, KeyC1, 35) == [0xae, 0xbf, 0x7a, 0xd2]
    ensures KeyWord(t, KeyC1, 36) == [0x54, 0x99, 0x32, 0xd1]
    ensures KeyWord(t, KeyC1, 37) == [0xf0, 0x85, 0x57, 0x68]
    ensures KeyWord(t, KeyC1, 38) == [0x10, 0x93, 0xed, 0x9c]
    ensures KeyWord(t, KeyC1, 39) == [0xbe, 0x2c, 0x97, 0x4e]
  {
    Word36(t);
    Word37(t);
    Word38(t);
    Word39(t);
  }

  /** Words 40..43 (round key 10) from the four before them. */
  lemma KeyRound10(t: Table)
    requires forall b: bv8 :: t[b] == FipsSBox(b)
    requires KeyWord(t, KeyC1, 36) == [0x54, 0x99, 0x32, 0xd1]
    requires KeyWord(t, KeyC1, 37) == [0xf0, 0x85, 0x57, 0x68]
    requires KeyWord(t, KeyC1, 38) == [0x10, 0x93, 0xed, 0x9c]
    requires KeyWord(t, KeyC1, 39) == [0xbe, 0x2c, 0x97, 0x4e]
    ensures KeyWord(t, KeyC1, 40) == [0x13, 0x11, 0x1d, 0x7f]
    ensures KeyWord(t, KeyC1, 41) == [0xe3, 0x94, 0x4a, 0x17]
    ensures KeyWord(t, KeyC1, 42) == [0xf3, 0x07, 0xa7, 0x8b]
    ensures KeyWord(t, KeyC1, 43) == [0x4d, 0x2b, 0x30, 0xc5]
  {
    Word40(t);
    Word41(t);
    Word42(t);
    Word43(t);
  }

  /** Round key 0 as bytes 0..15 of the schedule. */
  lemma RoundKey0(t: Table)
    requires KeyWord(t, KeyC1, 0) == [0x00, 0x01, 0x02, 0x03]
    requires KeyWord(t, KeyC1, 1) == [0x04, 0x05, 0x06, 0x07]
    requires KeyWord(t, KeyC1, 2) == [0x08, 0x09, 0x0a, 0x0b]
    requires KeyWord(t, KeyC1, 3) == [0x0c, 0x0d, 0x0e, 0x0f]
    ensures BytesAt(ExpandKey(t, KeyC1), 0, 0x00, 0x01, 0x02, 0x03)
    ensures BytesAt(ExpandKey(t, KeyC1), 4, 0x04, 0x05, 0x06, 0x07)
    ensures BytesAt(ExpandKey(t, KeyC1), 8, 0x08, 0x09, 0x0a, 0x0b)
    ensures BytesAt(ExpandKey(t, KeyC1), 12, 0x0c, 0x0d, 0x0e, 0x0f)
  {
    ExpandKeyByte(t, KeyC1, 0, 0);
    ExpandKeyByte(t, KeyC1, 0, 1);
    ExpandKeyByte(t, KeyC1, 0, 2);
    ExpandKeyByte(t, KeyC1, 0, 3);
    ExpandKeyByte(t, KeyC1, 1, 0);
    ExpandKeyByte(t, KeyC1, 1, 1);
    ExpandKeyByte(t, KeyC1, 1, 2);
    ExpandKeyByte(t, KeyC1, 1, 3);
    ExpandKeyByte(t, KeyC1, 2, 0);
    ExpandKeyByte(t, KeyC1, 2, 1);
    ExpandKeyByte(t, KeyC1, 2, 2);
    ExpandKeyByte(t, KeyC1, 2, 3);
    ExpandKeyByte(t, KeyC1, 3, 0);
    ExpandKeyByte(t, KeyC1, 3, 1);
    ExpandKeyByte(t, KeyC1, 3, 2);
    ExpandKeyByte(t, KeyC1, 3, 3);
  }

  /** Column 0 after AddRoundKey in round 0. */
  lemma Round0AddKey0(m: Block, w: Schedule)
    requires BytesAt(m, 0, 0x00, 0x11, 0x22, 0x33)
    requires BytesAt(w, 0, 0x00, 0x01, 0x02, 0x03)
    ensures BytesAt(AddRoundKey(m, w, 0), 0, 0x00, 0x10, 0x20, 0x30)
  {}

  /** Column 1 after AddRoundKey in round 0. */
  lemma Round0AddKey1(m: Block, w: Schedule)
    requires BytesAt(m, 4, 0x44, 0x55, 0x66, 0x77)
    requires BytesAt(w, 4, 0x04, 0x05, 0x06, 0x07)
    ensures BytesAt(AddRoundKey(m, w, 0), 4, 0x40, 0x50, 0x60, 0x70)
  {}

  /** Column 2 after AddRoundKey in round 0. */
  lemma Round0AddKey2(m: Block, w: Schedule)
    requires BytesAt(m, 8, 0x88, 0x99, 0xaa, 0xbb)
    requires BytesAt(w, 8, 0x08, 0x09, 0x0a, 0x0b)
    ensures BytesAt(AddRoundKey(m, w, 0), 8, 0x80, 0x90, 0xa0, 0xb0)
  {}

  /** Column 3 after AddRoundKey in round 0. */
  lemma Round0AddKey3(m: Block, w: Schedule)
    requires BytesAt(m, 12, 0xcc, 0xdd, 0xee, 0xff)
    requires BytesAt(w, 12, 0x0c, 0x0d, 0x0e, 0x0f)
    ensures BytesAt(AddRoundKey(m, w, 0), 12, 0xc0, 0xd0, 0xe0, 0xf0)
  {}

  /** Round 0: the first AddRoundKey. */
  lemma Round0(t: Table)
    requires KeyWord(t, KeyC1, 0) == [0x00, 0x01, 0x02, 0x03]
    requires KeyWord(t, KeyC1, 1) == [0x04, 0x05, 0x06, 0x07]
    requires KeyWord(t, KeyC1, 2) == [0x08, 0x09, 0x0a, 0x0b]
    requires KeyWord(t, KeyC1, 3) == [0x0c, 0x0d, 0x0e, 0x0f]
    ensures BytesAt(State(t, ExpandKey(t, KeyC1), PlainC1, 0), 0, 0x00, 0x10, 0x20, 0x30)
    ensures BytesAt(State(t, ExpandKey(t, KeyC1), PlainC1, 0), 4, 0x40, 0x50, 0x60, 0x70)
    ensures BytesAt(State(t, ExpandKey(t, KeyC1), PlainC1, 0), 8, 0x80, 0x90, 0xa0, 0xb0)
    ensures BytesAt(State(t, ExpandKey(t, KeyC1), PlainC1, 0), 12, 0xc0, 0xd0, 0xe0, 0xf0)
  {
    RoundKey0(t);
    var m := PlainC1;
    Round0AddKey0(m, ExpandKey(t, KeyC1));
    Round0AddKey1(m, ExpandKey(t, KeyC1));
    Round0AddKey2(m, ExpandKey(t, KeyC1));
    Round0AddKey3(m, ExpandKey(t, KeyC1));
  }

  /** Round key 1 as bytes 16..31 of the schedule. */
  lemma RoundKey1(t: Table)
    requires KeyWord(t, KeyC1, 4) == [0xd6, 0xaa, 0x74, 0xfd]
    requires KeyWord(t, KeyC1, 5) == [0xd2, 0xaf, 0x72, 0xfa]
    requires KeyWord(t, KeyC1, 6) == [0xda, 0xa6, 0x78, 0xf1]
    requires KeyWord(t, KeyC1, 7) == [0xd6, 0xab, 0x76, 0xfe]
    ensures BytesAt(ExpandKey(t, KeyC1), 16, 0xd6, 0xaa, 0x74, 0xfd)
    ensures BytesAt(ExpandKey(t, KeyC1), 20, 0xd2, 0xaf, 0x72, 0xfa)
    ensures BytesAt(ExpandKey(t, KeyC1), 24, 0xda, 0xa6, 0x78, 0xf1)
    ensures BytesAt(ExpandKey(t, KeyC1), 28, 0xd6, 0xab, 0x76, 0xfe)
  {
    ExpandKeyByte(t, KeyC1, 4, 0);
    ExpandKeyByte(t, KeyC1, 4, 1);
    ExpandKeyByte(t, KeyC1, 4, 2);
    ExpandKeyByte(t, KeyC1, 4, 3);
    ExpandKeyByte(t, KeyC1, 5, 0);
    ExpandKeyByte(t, KeyC1, 5, 1);
    ExpandKeyByte(t, KeyC1, 5, 2);
    ExpandKeyByte(t, KeyC1, 5, 3);
    ExpandKeyByte(t, KeyC1, 6, 0);
    ExpandKeyByte(t, KeyC1, 6, 1);
    ExpandKeyByte(t, KeyC1, 6, 2);
    ExpandKeyByte(t, KeyC1, 6, 3);
    ExpandKeyByte(t, KeyC1, 7, 0);
    ExpandKeyByte(t, KeyC1, 7, 1);
    ExpandKeyByte(t, KeyC1, 7, 2);
    ExpandKeyByte(t, KeyC1, 7, 3);
  }

  /** Entries of Figure 7 that round 1 reads. */
  lemma Round1LookupsaValues()
    ensures FipsSBox(0x00) == 0x63
    ensures FipsSBox(0x10) == 0xca
    ensures FipsSBox(0x20) == 0xb7
    ensures FipsSBox(0x30) == 0x04
    ensures FipsSBox(0x40) == 0x09
    ensures FipsSBox(0x50) == 0x53
    ensures FipsSBox(0x60) == 0xd0
    ensures FipsSBox(0x70) == 0x51
  {}

  /** Entries of the table that round 1 reads. */
  lemma Round1Lookupsa(t: Table)
    requires forall b: bv8 :: t[b] == FipsSBox(b)
    ensures t[0x00] == 0x63
    ensures t[0x10] == 0xca
    ensures t[0x20] == 0xb7
    ensures t[0x30] == 0x04
    ensures t[0x40] == 0x09
    ensures t[0x50] == 0x53
    ensures t[0x60] == 0xd0
    ensures t[0x70] == 0x51
  {
    Round1LookupsaValues();
    FipsAt(t, 0x00, 0x63);
    FipsAt(t, 0x10, 0xca);
    FipsAt(t, 0x20, 0xb7);
    FipsAt(t, 0x30, 0x04);
    FipsAt(t, 0x40, 0x09);
    FipsAt(t, 0x50, 0x53);
    FipsAt(t, 0x60, 0xd0);
    FipsAt(t, 0x70, 0x51);
  }

  /** Entries of Figure 7 that round 1 reads. */
  lemma Round1LookupsbValues()
    ensures FipsSBox(0x80) == 0xcd
    ensures FipsSBox(0x90) == 0x60
    ensures FipsSBox(0xa0) == 0xe0
    ensures FipsSBox(0xb0) == 0xe7
    ensures FipsSBox(0xc0) == 0xba
    ensures FipsSBox(0xd0) == 0x70
    ensures FipsSBox(0xe0) == 0xe1
    ensures FipsSBox(0xf0) == 0x8c
  {}

  /** Entries of the table that round 1 reads. */
  lemma Round1Lookupsb(t: Table)
    requires forall b: bv8 :: t[b] == FipsSBox(b)
    ensures t[0x80] == 0xcd
    ensures t[0x90] == 0x60
    ensures t[0xa0] == 0xe0
    ensures t[0xb0] == 0xe7
    ensures t[0xc0] == 0xba
    ensures t[0xd0] == 0x70
    ensures t[0xe0] == 0xe1
    ensures t[0xf0] == 0x8c
  {
    Round1LookupsbValues();
    FipsAt(t, 0x80, 0xcd);
    FipsAt(t, 0x90, 0x60);
    FipsAt(t, 0xa0, 0xe0);
    FipsAt(t, 0xb0, 0xe7);
    FipsAt(t, 0xc0, 0xba);
    FipsAt(t, 0xd0, 0x70);
    FipsAt(t, 0xe0, 0xe1);
    FipsAt(t, 0xf0, 0x8c);
  }

  /** Column 0 after SubBytes and ShiftRows in round 1. */
  lemma Round1SubShift0(t: Table, s: Block)
    requires t[0x00] == 0x63
    requires t[0x50] == 0x53
    requires t[0xa0] == 0xe0
    requires t[0xf0] == 0x8c
    requires s[0] == 0x00 && s[5] == 0x50 && s[10] == 0xa0 && s[15] == 0xf0
    ensures BytesAt(ShiftRows(SubBytes(t, s)), 0, 0x63, 0x53, 0xe0, 0x8c)
  {
    SubShiftByte(t, s, 0, 0);
    SubShiftByte(t, s, 0, 1);
    SubShiftByte(t, s, 0, 2);
    SubShiftByte(t, s, 0, 3);
  }

  /** Column 0 after MixColumns in round 1. */
  lemma Round1Mix0(x: Block)
    requires BytesAt(x, 0, 0x63, 0x53, 0xe0, 0x8c)
    ensures BytesAt(MixColumns(x), 0, 0x5f, 0x72, 0x64, 0x15)
  {
    MixColumnsByte(x, 0, 0);
    MixColumnsByte(x, 0, 1);
    MixColumnsByte(x, 0, 2);
    MixColumnsByte(x, 0, 3);
    assert Column(x, 0) == [0x63, 0x53, 0xe0, 0x8c];
  }

  /** Column 1 after SubBytes and ShiftRows in round 1. */
  lemma Round1SubShift1(t: Table, s: Block)
    requires t[0x30] == 0x04
    requires t[0x40] == 0x09
    requires t[0x90] == 0x60
    requires t[0xe0] == 0xe1
    requires s[4] == 0x40 && s[9] == 0x90 && s[14] == 0xe0 && s[3] == 0x30
    ensures BytesAt(ShiftRows(SubBytes(t, s)), 4, 0x09, 0x60, 0xe1, 0x04)
  {
    SubShiftByte(t, s, 1, 0);
    SubShiftByte(t, s, 1, 1);
    SubShiftByte(t, s, 1, 2);
    SubShiftByte(t, s, 1, 3);
  }

  /** Column 1 after MixColumns in round 1. */
  lemma Round1Mix1(x: Block)
    requires BytesAt(x, 4, 0x09, 0x60, 0xe1, 0x04)
    ensures BytesAt(MixColumns(x), 4, 0x57, 0xf5, 0xbc, 0x92)
  {
    MixColumnsByte(x, 1, 0);
    MixColumnsByte(x, 1, 1);
    MixColumnsByte(x, 1, 2);
    MixColumnsByte(x, 1, 3);
    assert Column(x, 1) == [0x09, 0x60, 0xe1, 0x04];
  }

  /** Column 2 after SubBytes and ShiftRows in round 1. */
  lemma Round1SubShift2(t: Table, s: Block)
    requires t[0x20] == 0xb7
    requires t[0x70] == 0x51
    requires t[0x80] == 0xcd
    requires t[0xd0] == 0x70
    requires s[8] == 0x80 && s[13] == 0xd0 && s[2] == 0x20 && s[7] == 0x70
    ensures BytesAt(ShiftRows(SubBytes(t, s)), 8, 0xcd, 0x70, 0xb7, 0x51)
  {
    SubShiftByte(t, s, 2, 0);
    SubShiftByte(t, s, 2, 1);
    SubShiftByte(t, s, 2, 2);
    SubShiftByte(t, s, 2, 3);
  }

  /** Column 2 after MixColumns in round 1. */
  lemma Round1Mix2(x: Block)
    requires BytesAt(x, 8, 0xcd, 0x70, 0xb7, 0x51)
    ensures BytesAt(MixColumns(x), 8, 0xf7, 0xbe, 0x3b, 0x29)
  {
    MixColumnsByte(x, 2, 0);
    MixColumnsByte(x, 2, 1);
    MixColumnsByte(x, 2, 2);
    MixColumnsByte(x, 2, 3);
    assert Column(x, 2) == [0xcd, 0x70, 0xb7, 0x51];
  }

  /** Column 3 after SubBytes and ShiftRows in round 1. */
  lemma Round1SubShift3(t: Table, s: Block)
    requires t[0x10] == 0xca
    requires t[0x60] == 0xd0
    requires t[0xb0] == 0xe7
    requires t[0xc0] == 0xba
    requires s[12] == 0xc0 && s[1] == 0x10 && s[6] == 0x60 && s[11] == 0xb0
    ensures BytesAt(ShiftRows(SubBytes(t, s)), 12, 0xba, 0xca, 0xd0, 0xe7)
  {
    SubShiftByte(t, s, 3, 0);
    SubShiftByte(t, s, 3, 1);
    SubShiftByte(t, s, 3, 2);
    SubShiftByte(t, s, 3, 3);
  }

  /** Column 3 after MixColumns in round 1. */
  lemma Round1Mix3(x: Block)
    requires BytesAt(x, 12, 0xba, 0xca, 0xd0, 0xe7)
    ensures BytesAt(MixColumns(x), 12, 0x1d, 0xb9, 0xf9, 0x1a)
  {
    MixColumnsByte(x, 3, 0);
    MixColumnsByte(x, 3, 1);
    MixColumnsByte(x, 3, 2);
    MixColumnsByte(x, 3, 3);
    assert Column(x, 3) == [0xba, 0xca, 0xd0, 0xe7];
  }

  /** Column 0 after AddRoundKey in round 1. */
  lemma Round1AddKey0(m: Block, w: Schedule)
    requires BytesAt(m, 0, 0x5f, 0x72, 0x64, 0x15)
    requires BytesAt(w, 16, 0xd6, 0xaa, 0x74, 0xfd)
    ensures BytesAt(AddRoundKey(m, w, 1), 0, 0x89, 0xd8, 0x10, 0xe8)
  {}

  /** Column 1 after AddRoundKey in round 1. */
  lemma Round1AddKey1(m: Block, w: Schedule)
    requires BytesAt(m, 4, 0x57, 0xf5, 0xbc, 0x92)
    requires BytesAt(w, 20, 0xd2, 0xaf, 0x72, 0xfa)
    ensures BytesAt(AddRoundKey(m, w, 1), 4, 0x85, 0x5a, 0xce, 0x68)
  {}

  /** Column 2 after AddRoundKey in round 1. */
  lemma Round1AddKey2(m: Block, w: Schedule)
    requires BytesAt(m, 8, 0xf7, 0xbe, 0x3b, 0x29)
    requires BytesAt(w, 24, 0xda, 0xa6, 0x78, 0xf1)
    ensures BytesAt(AddRoundKey(m, w, 1), 8, 0x2d, 0x18, 0x43, 0xd8)
  {}

  /** Column 3 after AddRoundKey in round 1. */
  lemma Round1AddKey3(m: Block, w: Schedule)
    requires BytesAt(m, 12, 0x1d, 0xb9, 0xf9, 0x1a)
    requires BytesAt(w, 28, 0xd6, 0xab, 0x76, 0xfe)
    ensures BytesAt(AddRoundKey(m, w, 1), 12, 0xcb, 0x12, 0x8f, 0xe4)
  {}

  /** Round 1: the state at its end from the state at its start. */
  lemma Round1(t: Table)
    requires forall b: bv8 :: t[b] == FipsSBox(b)
    requires KeyWord(t, KeyC1, 4) == [0xd6, 0xaa, 0x74, 0xfd]
    requires KeyWord(t, KeyC1, 5) == [0xd2, 0xaf, 0x72, 0xfa]
    requires KeyWord(t, KeyC1, 6) == [0xda, 0xa6, 0x78, 0xf1]
    requires KeyWord(t, KeyC1, 7) == [0xd6, 0xab, 0x76, 0xfe]
    requires BytesAt(State(t, ExpandKey(t, KeyC1), PlainC1, 0), 0, 0x00, 0x10, 0x20, 0x30)
    requires BytesAt(State(t, ExpandKey(t, KeyC1), PlainC1, 0), 4, 0x40, 0x50, 0x60, 0x70)
    requires BytesAt(State(t, ExpandKey(t, KeyC1), PlainC1, 0), 8, 0x80, 0x90, 0xa0, 0xb0)
    requires BytesAt(State(t, ExpandKey(t, KeyC1), PlainC1, 0), 12, 0xc0, 0xd0, 0xe0, 0xf0)
    ensures BytesAt(State(t, ExpandKey(t, KeyC1), PlainC1, 1), 0, 0x89, 0xd8, 0x10, 0xe8)
    ensures BytesAt(State(t, ExpandKey(t, KeyC1), PlainC1, 1), 4, 0x85, 0x5a, 0xce, 0x68)
    ensures BytesAt(State(t, ExpandKey(t, KeyC1), PlainC1, 1), 8, 0x2d, 0x18, 0x43, 0xd8)
    ensures BytesAt(State(t, ExpandKey(t, KeyC1), PlainC1, 1), 12, 0xcb, 0x12, 0x8f, 0xe4)
  {
    RoundKey1(t);
    var s := State(t, ExpandKey(t, KeyC1), PlainC1, 0);
    Round1Lookupsa(t);
    Round1Lookupsb(t);
    Round1SubShift0(t, s);
    Round1SubShift1(t, s);
    Round1SubShift2(t, s);
    Round1SubShift3(t, s);
    var x := ShiftRows(SubBytes(t, s));
    Round1Mix0(x);
    Round1Mix1(x);
    Round1Mix2(x);
    Round1Mix3(x);
    var m := MixColumns(x);
    Round1AddKey0(m, ExpandKey(t, KeyC1));
    Round1AddKey1(m, ExpandKey(t, KeyC1));
    Round1AddKey2(m, ExpandKey(t, KeyC1));
    Round1AddKey3(m, ExpandKey(t, KeyC1));
  }

  /** Round key 2 as bytes 32..47 of the schedule. */
  lemma RoundKey2(t: Table)
    requires KeyWord(t, KeyC1, 8) == [0xb6, 0x92, 0xcf, 0x0b]
    requires KeyWord(t, KeyC1, 9) == [0x64, 0x3d, 0xbd, 0xf1]
    requires KeyWord(t, KeyC1, 10) == [0xbe, 0x9b, 0xc5, 0x00]
    requires KeyWord(t, KeyC1, 11) == [0x68, 0x30, 0xb3, 0xfe]
    ensures BytesAt(ExpandKey(t, KeyC1), 32, 0xb6, 0x92, 0xcf, 0x0b)
    ensures BytesAt(ExpandKey(t, KeyC1), 36, 0x64, 0x3d, 0xbd, 0xf1)
    ensures BytesAt(ExpandKey(t, KeyC1), 40, 0xbe, 0x9b, 0xc5, 0x00)
    ensures BytesAt(ExpandKey(t, KeyC1), 44, 0x68, 0x30, 0xb3, 0xfe)
  {
    ExpandKeyByte(t, KeyC1, 8, 0);
    ExpandKeyByte(t, KeyC1, 8, 1);
    ExpandKeyByte(t, KeyC1, 8, 2);
    ExpandKeyByte(t, KeyC1, 8, 3);
    ExpandKeyByte(t, KeyC1, 9, 0);
    ExpandKeyByte(t, KeyC1, 9, 1);
    ExpandKeyByte(t, KeyC1, 9, 2);
    ExpandKeyByte(t, KeyC1, 9, 3);
    ExpandKeyByte(t, KeyC1, 10, 0);
    ExpandKeyByte(t, KeyC1, 10, 1);
    ExpandKeyByte(t, KeyC1, 10, 2);
    ExpandKeyByte(t, KeyC1, 10, 3);
    ExpandKeyByte(t, KeyC1, 11, 0);
    ExpandKeyByte(t, KeyC1, 11, 1);
    ExpandKeyByte(t, KeyC1, 11, 2);
    ExpandKeyByte(t, KeyC1, 11, 3);
  }

  /** Entries of Figure 7 that round 2 reads. */
  lemma Round2LookupsaValues()
    ensures FipsSBox(0x10) == 0xca
    ensures FipsSBox(0x12) == 0xc9
    ensures FipsSBox(0x18) == 0xad
    ensures FipsSBox(0x2d) == 0xd8
    ensures FipsSBox(0x43) == 0x1a
    ensures FipsSBox(0x5a) == 0xbe
    ensures FipsSBox(0x68) == 0x45
    ensures FipsSBox(0x85) == 0x97
  {}

  /** Entries of the table that round 2 reads. */
  lemma Round2Lookupsa(t: Table)
    requires forall b: bv8 :: t[b] == FipsSBox(b)
    ensures t[0x10] == 0xca
    ensures t[0x12] == 0xc9
    ensures t[0x18] == 0xad
    ensures t[0x2d] == 0xd8
    ensures t[0x43] == 0x1a
    ensures t[0x5a] == 0xbe
    ensures t[0x68] == 0x45
    ensures t[0x85] == 0x97
  {
    Round2LookupsaValues();
    FipsAt(t, 0x10, 0xca);
    FipsAt(t, 0x12, 0xc9);
    FipsAt(t, 0x18, 0xad);
    FipsAt(t, 0x2d, 0xd8);
    FipsAt(t, 0x43, 0x1a);
    FipsAt(t, 0x5a, 0xbe);
    FipsAt(t, 0x68, 0x45);
    FipsAt(t, 0x85, 0x97);
  }

  /** Entries of Figure 7 that round 2 reads. */
  lemma Round2LookupsbValues()
    ensures FipsSBox(0x89) == 0xa7
    ensures FipsSBox(0x8f) == 0x73
    ensures FipsSBox(0xcb) == 0x1f
    ensures FipsSBox(0xce) == 0x8b
    ensures FipsSBox(0xd8) == 0x61
    ensures FipsSBox(0xe4) == 0x69
    ensures FipsSBox(0xe8) == 0x9b
  {}

  /** Entries of the table that round 2 reads. */
  lemma Round2Lookupsb(t: Table)
    requires forall b: bv8 :: t[b] == FipsSBox(b)
    ensures t[0x89] == 0xa7
    ensures t[0x8f] == 0x73
    ensures t[0xcb] == 0x1f
    ensures t[0xce] == 0x8b
    ensures t[0xd8] == 0x61
    ensures t[0xe4] == 0x69
    ensures t[0xe8] == 0x9b
  {
    Round2LookupsbValues();
    FipsAt(t, 0x89, 0xa7);
    FipsAt(t, 0x8f, 0x73);
    FipsAt(t, 0xcb, 0x1f);
    FipsAt(t, 0xce, 0x8b);
    FipsAt(t, 0xd8, 0x61);
    FipsAt(t, 0xe4, 0x69);
    FipsAt(t, 0xe8, 0x9b);
  }

  /** Column 0 after SubBytes and ShiftRows in round 2. */
  lemma Round2SubShift0(t: Table, s: Block)
    requires t[0x43] == 0x1a
    requires t[0x5a] == 0xbe
    requires t[0x89] == 0xa7
    requires t[0xe4] == 0x69
    requires s[0] == 0x89 && s[5] == 0x5a && s[10] == 0x43 && s[15] == 0xe4
    ensures BytesAt(ShiftRows(SubBytes(t, s)), 0, 0xa7, 0xbe, 0x1a, 0x69)
  {
    SubShiftByte(t, s, 0, 0);
    SubShiftByte(t, s, 0, 1);
    SubShiftByte(t, s, 0, 2);
    SubShiftByte(t, s, 0, 3);
  }

  /** Column 0 after MixColumns in round 2. */
  lemma Round2Mix0(x: Block)
    requires BytesAt(x, 0, 0xa7, 0xbe, 0x1a, 0x69)
    ensures BytesAt(MixColumns(x), 0, 0xff, 0x87, 0x96, 0x84)
  {
    MixColumnsByte(x, 0, 0);
    MixColumnsByte(x, 0, 1);
    MixColumnsByte(x, 0, 2);
    MixColumnsByte(x, 0, 3);
    assert Column(x, 0) == [0xa7, 0xbe, 0x1a, 0x69];
  }

  /** Column 1 after SubBytes and ShiftRows in round 2. */
  lemma Round2SubShift1(t: Table, s: Block)
    requires t[0x18] == 0xad
    requires t[0x85] == 0x97
    requires t[0x8f] == 0x73
    requires t[0xe8] == 0x9b
    requires s[4] == 0x85 && s[9] == 0x18 && s[14] == 0x8f && s[3] == 0xe8
    ensures BytesAt(ShiftRows(SubBytes(t, s)), 4, 0x97, 0xad, 0x73, 0x9b)
  {
    SubShiftByte(t, s, 1, 0);
    SubShiftByte(t, s, 1, 1);
    SubShiftByte(t, s, 1, 2);
    SubShiftByte(t, s, 1, 3);
  }

  /** Column 1 after MixColumns in round 2. */
  lemma Round2Mix1(x: Block)
    requires BytesAt(x, 4, 0x97, 0xad, 0x73, 0x9b)
    ensures BytesAt(MixColumns(x), 4, 0x31, 0xd8, 0x6a, 0x51)
  {
    MixColumnsByte(x, 1, 0);
    MixColumnsByte(x, 1, 1);
    MixColumnsByte(x, 1, 2);
    MixColumnsByte(x, 1, 3);
    assert Column(x, 1) == [0x97, 0xad, 0x73, 0x9b];
  }

  /** Column 2 after SubBytes and ShiftRows in round 2. */
  lemma Round2SubShift2(t: Table, s: Block)
    requires t[0x10] == 0xca
    requires t[0x12] == 0xc9
    requires t[0x2d] == 0xd8
    requires t[0x68] == 0x45
    requires s[8] == 0x2d && s[13] == 0x12 && s[2] == 0x10 && s[7] == 0x68
    ensures BytesAt(ShiftRows(SubBytes(t, s)), 8, 0xd8, 0xc9, 0xca, 0x45)
  {
    SubShiftByte(t, s, 2, 0);
    SubShiftByte(t, s, 2, 1);
    SubShiftByte(t, s, 2, 2);
    SubShiftByte(t, s, 2, 3);
  }

  /** Column 2 after MixColumns in round 2. */
  lemma Round2Mix2(x: Block)
    requires BytesAt(x, 8, 0xd8, 0xc9, 0xca, 0x45)
    ensures BytesAt(MixColumns(x), 8, 0x64, 0x51, 0x51, 0xfa)
  {
    MixColumnsByte(x, 2, 0);
    MixColumnsByte(x, 2, 1);
    MixColumnsByte(x, 2, 2);
    MixColumnsByte(x, 2, 3);
    assert Column(x, 2) == [0xd8, 0xc9, 0xca, 0x45];
  }

  /** Column 3 after SubBytes and ShiftRows in round 2. */
  lemma Round2SubShift3(t: Table, s: Block)
    requires t[0xcb] == 0x1f
    requires t[0xce] == 0x8b
    requires t[0xd8] == 0x61
    requires t[0xd8] == 0x61
    requires s[12] == 0xcb && s[1] == 0xd8 && s[6] == 0xce && s[11] == 0xd8
    ensures BytesAt(ShiftRows(SubBytes(t, s)), 12, 0x1f, 0x61, 0x8b, 0x61)
  {
    SubShiftByte(t, s, 3, 0);
    SubShiftByte(t, s, 3, 1);
    SubShiftByte(t, s, 3, 2);
    SubShiftByte(t, s, 3, 3);
  }

  /** Column 3 after MixColumns in round 2. */
  lemma Round2Mix3(x: Block)
    requires BytesAt(x, 12, 0x1f, 0x61, 0x8b, 0x61)
    ensures BytesAt(MixColumns(x), 12, 0x77, 0x3a, 0xd0, 0x09)
  {
    MixColumnsByte(x, 3, 0);
    MixColumnsByte(x, 3, 1);
    MixColumnsByte(x, 3, 2);
    MixColumnsByte(x, 3, 3);
    assert Column(x, 3) == [0x1f, 0x61, 0x8b, 0x61];
  }

  /** Column 0 after AddRoundKey in round 2. */
  lemma Round2AddKey0(m: Block, w: Schedule)
    requires BytesAt(m, 0, 0xff, 0x87, 0x96, 0x84)
    requires BytesAt(w, 32, 0xb6, 0x92, 0xcf, 0x0b)
    ensures BytesAt(AddRoundKey(m, w, 2), 0, 0x49, 0x15, 0x59, 0x8f)
  {}

  /** Column 1 after AddRoundKey in round 2. */
  lemma Round2AddKey1(m: Block, w: Schedule)
    requires BytesAt(m, 4, 0x31, 0xd8, 0x6a, 0x51)
    requires BytesAt(w, 36, 0x64, 0x3d, 0xbd, 0xf1)
    ensures BytesAt(AddRoundKey(m, w, 2), 4, 0x55, 0xe5, 0xd7, 0xa0)
  {}

  /** Column 2 after AddRoundKey in round 2. */
  lemma Round2AddKey2(m: Block, w: Schedule)
    requires BytesAt(m, 8, 0x64, 0x51, 0x51, 0xfa)
    requires BytesAt(w, 40, 0xbe, 0x9b, 0xc5, 0x00)
    ensures BytesAt(AddRoundKey(m, w, 2), 8, 0xda, 0xca, 0x94, 0xfa)
  {}

  /** Column 3 after AddRoundKey in round 2. */
  lemma Round2AddKey3(m: Block, w: Schedule)
    requires BytesAt(m, 12, 0x77, 0x3a, 0xd0, 0x09)
    requires BytesAt(w, 44, 0x68, 0x30, 0xb3, 0xfe)
    ensures BytesAt(AddRoundKey(m, w, 2), 12, 0x1f, 0x0a, 0x63, 0xf7)
  {}

  /** Round 2: the state at its end from the state at its start. */
  lemma Round2(t: Table)
    requires forall b: bv8 :: t[b] == FipsSBox(b)
    requires KeyWord(t, KeyC1, 8) == [0xb6, 0x92, 0xcf, 0x0b]
    requires KeyWord(t, KeyC1, 9) == [0x64, 0x3d, 0xbd, 0xf1]
    requires KeyWord(t, KeyC1, 10) == [0xbe, 0x9b, 0xc5, 0x00]
    requires KeyWord(t, KeyC1, 11) == [0x68, 0x30, 0xb3, 0xfe]
    requires BytesAt(State(t, ExpandKey(t, KeyC1), PlainC1, 1), 0, 0x89, 0xd8, 0x10, 0xe8)
    requires BytesAt(State(t, ExpandKey(t, KeyC1), PlainC1, 1), 4, 0x85, 0x5a, 0xce, 0x68)
    requires BytesAt(State(t, ExpandKey(t, KeyC1), PlainC1, 1), 8, 0x2d, 0x18, 0x43, 0xd8)
    requires BytesAt(State(t, ExpandKey(t, KeyC1), PlainC1, 1), 12, 0xcb, 0x12, 0x8f, 0xe4)
    ensures BytesAt(State(t, ExpandKey(t, KeyC1), PlainC1, 2), 0, 0x49, 0x15, 0x59, 0x8f)
    ensures BytesAt(State(t, ExpandKey(t, KeyC1), PlainC1, 2), 4, 0x55, 0xe5, 0xd7, 0xa0)
    ensures BytesAt(State(t, ExpandKey(t, KeyC1), PlainC1, 2), 8, 0xda, 0xca, 0x94, 0xfa)
    ensures BytesAt(State(t, ExpandKey(t, KeyC1), PlainC1, 2), 12, 0x1f, 0x0a, 0x63, 0xf7)
  {
    RoundKey2(t);
    var s := State(t, ExpandKey(t, KeyC1), PlainC1, 1);
    Round2Lookupsa(t);
    Round2Lookupsb(t);
    Round2SubShift0(t, s);
    Round2SubShift1(t, s);
    Round2SubShift2(t, s);
    Round2SubShift3(t, s);
    var x := ShiftRows(SubBytes(t, s));
    Round2Mix0(x);
    Round2Mix1(x);
    Round2Mix2(x);
    Round2Mix3(x);
    var m := MixColumns(x);
    Round2AddKey0(m, ExpandKey(t, KeyC1));
    Round2AddKey1(m, ExpandKey(t, KeyC1));
    Round2AddKey2(m, ExpandKey(t, KeyC1));
    Round2AddKey3(m, ExpandKey(t, KeyC1));
  }

  /** Round key 3 as bytes 48..63 of the schedule. */
  lemma RoundKey3(t: Table)
    requires KeyWord(t, KeyC1, 12) == [0xb6, 0xff, 0x74, 0x4e]
    requires KeyWord(t, KeyC1, 13) == [0xd2, 0xc2, 0xc9, 0xbf]
    requires KeyWord(t, KeyC1, 14) == [0x6c, 0x59, 0x0c, 0xbf]
    requires KeyWord(t, KeyC1, 15) == [0x04, 0x69, 0xbf, 0x41]
    ensures BytesAt(ExpandKey(t, KeyC1), 48, 0xb6, 0xff, 0x74, 0x4e)
    ensures BytesAt(ExpandKey(t, KeyC1), 52, 0xd2, 0xc2, 0xc9, 0xbf)
    ensures BytesAt(ExpandKey(t, KeyC1), 56, 0x6c, 0x59, 0x0c, 0xbf)
    ensures BytesAt(ExpandKey(t, KeyC1), 60, 0x04, 0x69, 0xbf, 0x41)
  {
    ExpandKeyByte(t, KeyC1, 12, 0);
    ExpandKeyByte(t, KeyC1, 12, 1);
    ExpandKeyByte(t, KeyC1, 12, 2);
    ExpandKeyByte(t, KeyC1, 12, 3);
    ExpandKeyByte(t, KeyC1, 13, 0);
    ExpandKeyByte(t, KeyC1, 13, 1);
    ExpandKeyByte(t, KeyC1, 13, 2);
    ExpandKeyByte(t, KeyC1, 13, 3);
    ExpandKeyByte(t, KeyC1, 14, 0);
    ExpandKeyByte(t, KeyC1, 14, 1);
    ExpandKeyByte(t, KeyC1, 14, 2);
    ExpandKeyByte(t, KeyC1, 14, 3);
    ExpandKeyByte(t, KeyC1, 15, 0);
    ExpandKeyByte(t, KeyC1, 15, 1);
    ExpandKeyByte(t, KeyC1, 15, 2);
    ExpandKeyByte(t, KeyC1, 15, 3);
  }

  /** Entries of Figure 7 that round 3 reads. */
  lemma Round3LookupsaValues()
    ensures FipsSBox(0x0a) == 0x67
    ensures FipsSBox(0x15) == 0x59
    ensures FipsSBox(0x1f) == 0xc0
    ensures FipsSBox(0x49) == 0x3b
    ensures FipsSBox(0x55) == 0xfc
    ensures FipsSBox(0x59) == 0xcb
    ensures FipsSBox(0x63) == 0xfb
    ensures FipsSBox(0x8f) == 0x73
  {}

  /** Entries of the table that round 3 reads. */
  lemma Round3Lookupsa(t: Table)
    requires forall b: bv8 :: t[b] == FipsSBox(b)
    ensures t[0x0a] == 0x67
    ensures t[0x15] == 0x59
    ensures t[0x1f] == 0xc0
    ensures t[0x49] == 0x3b
    ensures t[0x55] == 0xfc
    ensures t[0x59] == 0xcb
    ensures t[0x63] == 0xfb
    ensures t[0x8f] == 0x73
  {
    Round3LookupsaValues();
    FipsAt(t, 0x0a, 0x67);
    FipsAt(t, 0x15, 0x59);
    FipsAt(t, 0x1f, 0xc0);
    FipsAt(t, 0x49, 0x3b);
    FipsAt(t, 0x55, 0xfc);
    FipsAt(t, 0x59, 0xcb);
    FipsAt(t, 0x63, 0xfb);
    FipsAt(t, 0x8f, 0x73);
  }

  /** Entries of Figure 7 that round 3 reads. */
  lemma Round3LookupsbValues()
    ensures FipsSBox(0x94) == 0x22
    ensures FipsSBox(0xa0) == 0xe0
    ensures FipsSBox(0xca) == 0x74
    ensures FipsSBox(0xd7) == 0x0e
    ensures FipsSBox(0xda) == 0x57
    ensures FipsSBox(0xe5) == 0xd9
    ensures FipsSBox(0xf7) == 0x68
    ensures FipsSBox(0xfa) == 0x2d
  {}

  /** Entries of the table that round 3 reads. */
  lemma Round3Lookupsb(t: Table)
    requires forall b: bv8 :: t[b] == FipsSBox(b)
    ensures t[0x94] == 0x22
    ensures t[0xa0] == 0xe0
    ensures t[0xca] == 0x74
    ensures t[0xd7] == 0x0e
    ensures t[0xda] == 0x57
    ensures t[0xe5] == 0xd9
    ensures t[0xf7] == 0x68
    ensures t[0xfa] == 0x2d
  {
    Round3LookupsbValues();
    FipsAt(t, 0x94, 0x22);
    FipsAt(t, 0xa0, 0xe0);
    FipsAt(t, 0xca, 0x74);
    FipsAt(t, 0xd7, 0x0e);
    FipsAt(t, 0xda, 0x57);
    FipsAt(t, 0xe5, 0xd9);
    FipsAt(t, 0xf7, 0x68);
    FipsAt(t, 0xfa, 0x2d);
  }

  /** Column 0 after SubBytes and ShiftRows in round 3. */
  lemma Round3SubShift0(t: Table, s: Block)
    requires t[0x49] == 0x3b
    requires t[0x94] == 0x22
    requires t[0xe5] == 0xd9
    requires t[0xf7] == 0x68
    requires s[0] == 0x49 && s[5] == 0xe5 && s[10] == 0x94 && s[15] == 0xf7
    ensures BytesAt(ShiftRows(SubBytes(t, s)), 0, 0x3b, 0xd9, 0x22, 0x68)
  {
    SubShiftByte(t, s, 0, 0);
    SubShiftByte(t, s, 0, 1);
    SubShiftByte(t, s, 0, 2);
    SubShiftByte(t, s, 0, 3);
  }

  /** Column 0 after MixColumns in round 3. */
  lemma Round3Mix0(x: Block)
    requires BytesAt(x, 0, 0x3b, 0xd9, 0x22, 0x68)
    ensures BytesAt(MixColumns(x), 0, 0x4c, 0x9c, 0x1e, 0x66)
  {
    MixColumnsByte(x, 0, 0);
    MixColumnsByte(x, 0, 1);
    MixColumnsByte(x, 0, 2);
    MixColumnsByte(x, 0, 3);
    assert Column(x, 0) == [0x3b, 0xd9, 0x22, 0x68];
  }

  /** Column 1 after SubBytes and ShiftRows in round 3. */
  lemma Round3SubShift1(t: Table, s: Block)
    requires t[0x55] == 0xfc
    requires t[0x63] == 0xfb
    requires t[0x8f] == 0x73
    requires t[0xca] == 0x74
    requires s[4] == 0x55 && s[9] == 0xca && s[14] == 0x63 && s[3] == 0x8f
    ensures BytesAt(ShiftRows(SubBytes(t, s)), 4, 0xfc, 0x74, 0xfb, 0x73)
  {
    SubShiftByte(t, s, 1, 0);
    SubShiftByte(t, s, 1, 1);
    SubShiftByte(t, s, 1, 2);
    SubShiftByte(t, s, 1, 3);
  }

  /** Column 1 after MixColumns in round 3. */
  lemma Round3Mix1(x: Block)
    requires BytesAt(x, 4, 0xfc, 0x74, 0xfb, 0x73)
    ensures BytesAt(MixColumns(x), 4, 0xf7, 0x71, 0xf0, 0x76)
  {
    MixColumnsByte(x, 1, 0);
    MixColumnsByte(x, 1, 1);
    MixColumnsByte(x, 1, 2);
    MixColumnsByte(x, 1, 3);
    assert Column(x, 1) == [0xfc, 0x74, 0xfb, 0x73];
  }

  /** Column 2 after SubBytes and ShiftRows in round 3. */
  lemma Round3SubShift2(t: Table, s: Block)
    requires t[0x0a] == 0x67
    requires t[0x59] == 0xcb
    requires t[0xa0] == 0xe0
    requires t[0xda] == 0x57
    requires s[8] == 0xda && s[13] == 0x0a && s[2] == 0x59 && s[7] == 0xa0
    ensures BytesAt(ShiftRows(SubBytes(t, s)), 8, 0x57, 0x67, 0xcb, 0xe0)
  {
    SubShiftByte(t, s, 2, 0);
    SubShiftByte(t, s, 2, 1);
    SubShiftByte(t, s, 2, 2);
    SubShiftByte(t, s, 2, 3);
  }

  /** Column 2 after MixColumns in round 3. */
  lemma Round3Mix2(x: Block)
    requires BytesAt(x, 8, 0x57, 0x67, 0xcb, 0xe0)
    ensures BytesAt(MixColumns(x), 8, 0x2c, 0x3f, 0x86, 0x8e)
  {
    MixColumnsByte(x, 2, 0);
    MixColumnsByte(x, 2, 1);
    MixColumnsByte(x, 2, 2);
    MixColumnsByte(x, 2, 3);
    assert Column(x, 2) == [0x57, 0x67, 0xcb, 0xe0];
  }

  /** Column 3 after SubBytes and ShiftRows in round 3. */
  lemma Round3SubShift3(t: Table, s: Block)
    requires t[0x15] == 0x59
    requires t[0x1f] == 0xc0
    requires t[0xd7] == 0x0e
    requires t[0xfa] == 0x2d
    requires s[12] == 0x1f && s[1] == 0x15 && s[6] == 0xd7 && s[11] == 0xfa
    ensures BytesAt(ShiftRows(SubBytes(t, s)), 12, 0xc0, 0x59, 0x0e, 0x2d)
  {
    SubShiftByte(t, s, 3, 0);
    SubShiftByte(t, s, 3, 1);
    SubShiftByte(t, s, 3, 2);
    SubShiftByte(t, s, 3, 3);
  }

  /** Column 3 after MixColumns in round 3. */
  lemma Round3Mix3(x: Block)
    requires BytesAt(x, 12, 0xc0, 0x59, 0x0e, 0x2d)
    ensures BytesAt(MixColumns(x), 12, 0x53, 0x4d, 0xf2, 0x56)
  {
    MixColumnsByte(x, 3, 0);
    MixColumnsByte(x, 3, 1);
    MixColumnsByte(x, 3, 2);
    MixColumnsByte(x, 3, 3);
    assert Column(x, 3) == [0xc0, 0x59, 0x0e, 0x2d];
  }

  /** Column 0 after AddRoundKey in round 3. */
  lemma Round3AddKey0(m: Block, w: Schedule)
    requires BytesAt(m, 0, 0x4c, 0x9c, 0x1e, 0x66)
    requires BytesAt(w, 48, 0xb6, 0xff, 0x74, 0x4e)
    ensures BytesAt(AddRoundKey(m, w, 3), 0, 0xfa, 0x63, 0x6a, 0x28)
  {}

  /** Column 1 after AddRoundKey in round 3. */
  lemma Round3AddKey1(m: Block, w: Schedule)
    requires BytesAt(m, 4, 0xf7, 0x71, 0xf0, 0x76)
    requires BytesAt(w, 52, 0xd2, 0xc2, 0xc9, 0xbf)
    ensures BytesAt(AddRoundKey(m, w, 3), 4, 0x25, 0xb3, 0x39, 0xc9)
  {}

  /** Column 2 after AddRoundKey in round 3. */
  lemma Round3AddKey2(m: Block, w: Schedule)
    requires BytesAt(m, 8, 0x2c, 0x3f, 0x86, 0x8e)
    requires BytesAt(w, 56, 0x6c, 0x59, 0x0c, 0xbf)
    ensures BytesAt(AddRoundKey(m, w, 3), 8, 0x40, 0x66, 0x8a, 0x31)
  {}

  /** Column 3 after AddRoundKey in round 3. */
  lemma Round3AddKey3(m: Block, w: Schedule)
    requires BytesAt(m, 12, 0x53, 0x4d, 0xf2, 0x56)
    requires BytesAt(w, 60, 0x04, 0x69, 0xbf, 0x41)
    ensures BytesAt(AddRoundKey(m, w, 3), 12, 0x57, 0x24, 0x4d, 0x17)
  {}

  /** Round 3: the state at its end from the state at its start. */
  lemma Round3(t: Table)
    requires forall b: bv8 :: t[b] == FipsSBox(b)
    requires KeyWord(t, KeyC1, 12) == [0xb6, 0xff, 0x74, 0x4e]
    requires KeyWord(t, KeyC1, 13) == [0xd2, 0xc2, 0xc9, 0xbf]
    requires KeyWord(t, KeyC1, 14) == [0x6c, 0x59, 0x0c, 0xbf]
    requires KeyWord(t, KeyC1, 15) == [0x04, 0x69, 0xbf, 0x41]
    requires BytesAt(State(t, ExpandKey(t, KeyC1), PlainC1, 2), 0, 0x49, 0x15, 0x59, 0x8f)
    requires BytesAt(State(t, ExpandKey(t, KeyC1), PlainC1, 2), 4, 0x55, 0xe5, 0xd7, 0xa0)
    requires BytesAt(State(t, ExpandKey(t, KeyC1), PlainC1, 2), 8, 0xda, 0xca, 0x94, 0xfa)
    requires BytesAt(State(t, ExpandKey(t, KeyC1), PlainC1, 2), 12, 0x1f, 0x0a, 0x63, 0xf7)
    ensures BytesAt(State(t, ExpandKey(t, KeyC1), PlainC1, 3), 0, 0xfa, 0x63, 0x6a, 0x28)
    ensures BytesAt(State(t, ExpandKey(t, KeyC1), PlainC1, 3), 4, 0x25, 0xb3, 0x39, 0xc9)
    ensures BytesAt(State(t, ExpandKey(t, KeyC1), PlainC1, 3), 8, 0x40, 0x66, 0x8a, 0x31)
    ensures BytesAt(State(t, ExpandKey(t, KeyC1), PlainC1, 3), 12, 0x57, 0x24, 0x4d, 0x17)
  {
    RoundKey3(t);
    var s := State(t, ExpandKey(t, KeyC1), PlainC1, 2);
    Round3Lookupsa(t);
    Round3Lookupsb(t);
    Round3SubShift0(t, s);
    Round3SubShift1(t, s);
    Round3SubShift2(t, s);
    Round3SubShift3(t, s);
    var x := ShiftRows(SubBytes(t, s));
    Round3Mix0(x);
    Round3Mix1(x);
    Round3Mix2(x);
    Round3Mix3(x);
    var m := MixColumns(x);
    Round3AddKey0(m, ExpandKey(t, KeyC1));
    Round3AddKey1(m, ExpandKey(t, KeyC1));
    Round3AddKey2(m, ExpandKey(t, KeyC1));
    Round3AddKey3(m, ExpandKey(t, KeyC1));
  }

  /** Round key 4 as bytes 64..79 of the schedule. */
  lemma RoundKey4(t: Table)
    requires KeyWord(t, KeyC1, 16) == [0x47, 0xf7, 0xf7, 0xbc]
    requires KeyWord(t, KeyC1, 17) == [0x95, 0x35, 0x3e, 0x03]
    requires KeyWord(t, KeyC1, 18) == [0xf9, 0x6c, 0x32, 0xbc]
    requires KeyWord(t, KeyC1, 19) == [0xfd, 0x05, 0x8d, 0xfd]
    ensures BytesAt(ExpandKey(t, KeyC1), 64, 0x47, 0xf7, 0xf7, 0xbc)
    ensures BytesAt(ExpandKey(t, KeyC1), 68, 0x95, 0x35, 0x3e, 0x03)
    ensures BytesAt(ExpandKey(t, KeyC1), 72, 0xf9, 0x6c, 0x32, 0xbc)
    ensures BytesAt(ExpandKey(t, KeyC1), 76, 0xfd, 0x05, 0x8d, 0xfd)
  {
    ExpandKeyByte(t, KeyC1, 16, 0);
    ExpandKeyByte(t, KeyC1, 16, 1);
    ExpandKeyByte(t, KeyC1, 16, 2);
    ExpandKeyByte(t, KeyC1, 16, 3);
    ExpandKeyByte(t, KeyC1, 17, 0);
    ExpandKeyByte(t, KeyC1, 17, 1);
    ExpandKeyByte(t, KeyC1, 17, 2);
    ExpandKeyByte(t, KeyC1, 17, 3);
    ExpandKeyByte(t, KeyC1, 18, 0);
    ExpandKeyByte(t, KeyC1, 18, 1);
    ExpandKeyByte(t, KeyC1, 18, 2);
    ExpandKeyByte(t, KeyC1, 18, 3);
    ExpandKeyByte(t, KeyC1, 19, 0);
    ExpandKeyByte(t, KeyC1, 19, 1);
    ExpandKeyByte(t, KeyC1, 19, 2);
    ExpandKeyByte(t, KeyC1, 19, 3);
  }

  /** Entries of Figure 7 that round 4 reads. */
  lemma Round4LookupsaValues()
    ensures FipsSBox(0x17) == 0xf0
    ensures FipsSBox(0x24) == 0x36
    ensures FipsSBox(0x25) == 0x3f
    ensures FipsSBox(0x28) == 0x34
    ensures FipsSBox(0x31) == 0xc7
    ensures FipsSBox(0x39) == 0x12
    ensures FipsSBox(0x40) == 0x09
    ensures FipsSBox(0x4d) == 0xe3
  {}

  /** Entries of the table that round 4 reads. */
  lemma Round4Lookupsa(t: Table)
    requires forall b: bv8 :: t[b] == FipsSBox(b)
    ensures t[0x17] == 0xf0
    ensures t[0x24] == 0x36
    ensures t[0x25] == 0x3f
    ensures t[0x28] == 0x34
    ensures t[0x31] == 0xc7
    ensures t[0x39] == 0x12
    ensures t[0x40] == 0x09
    ensures t[0x4d] == 0xe3
  {
    Round4LookupsaValues();
    FipsAt(t, 0x17, 0xf0);
    FipsAt(t, 0x24, 0x36);
    FipsAt(t, 0x25, 0x3f);
    FipsAt(t, 0x28, 0x34);
    FipsAt(t, 0x31, 0xc7);
    FipsAt(t, 0x39, 0x12);
    FipsAt(t, 0x40, 0x09);
    FipsAt(t, 0x4d, 0xe3);
  }

  /** Entries of Figure 7 that round 4 reads. */
  lemma Round4LookupsbValues()
    ensures FipsSBox(0x57) == 0x5b
    ensures FipsSBox(0x63) == 0xfb
    ensures FipsSBox(0x66) == 0x33
    ensures FipsSBox(0x6a) == 0x02
    ensures FipsSBox(0x8a) == 0x7e
    ensures FipsSBox(0xb3) == 0x6d
    ensures FipsSBox(0xc9) == 0xdd
    ensures FipsSBox(0xfa) == 0x2d
  {}

  /** Entries of the table that round 4 reads. */
  lemma Round4Lookupsb(t: Table)
    requires forall b: bv8 :: t[b] == FipsSBox(b)
    ensures t[0x57] == 0x5b
    ensures t[0x63] == 0xfb
    ensures t[0x66] == 0x33
    ensures t[0x6a] == 0x02
    ensures t[0x8a] == 0x7e
    ensures t[0xb3] == 0x6d
    ensures t[0xc9] == 0xdd
    ensures t[0xfa] == 0x2d
  {
    Round4LookupsbValues();
    FipsAt(t, 0x57, 0x5b);
    FipsAt(t, 0x63, 0xfb);
    FipsAt(t, 0x66, 0x33);
    FipsAt(t, 0x6a, 0x02);
    FipsAt(t, 0x8a, 0x7e);
    FipsAt(t, 0xb3, 0x6d);
    FipsAt(t, 0xc9, 0xdd);
    FipsAt(t, 0xfa, 0x2d);
  }

  /** Column 0 after SubBytes and ShiftRows in round 4. */
  lemma Round4SubShift0(t: Table, s: Block)
    requires t[0x17] == 0xf0
    requires t[0x8a] == 0x7e
    requires t[0xb3] == 0x6d
    requires t[0xfa] == 0x2d
    requires s[0] == 0xfa && s[5] == 0xb3 && s[10] == 0x8a && s[15] == 0x17
    ensures BytesAt(ShiftRows(SubBytes(t, s)), 0, 0x2d, 0x6d, 0x7e, 0xf0)
  {
    SubShiftByte(t, s, 0, 0);
    SubShiftByte(t, s, 0, 1);
    SubShiftByte(t, s, 0, 2);
    SubShiftByte(t, s, 0, 3);
  }

  /** Column 0 after MixColumns in round 4. */
  lemma Round4Mix0(x: Block)
    requires BytesAt(x, 0, 0x2d, 0x6d, 0x7e, 0xf0)
    ensures BytesAt(MixColumns(x), 0, 0x63, 0x85, 0xb7, 0x9f)
  {
    MixColumnsByte(x, 0, 0);
    MixColumnsByte(x, 0, 1);
    MixColumnsByte(x, 0, 2);
    MixColumnsByte(x, 0, 3);
    assert Column(x, 0) == [0x2d, 0x6d, 0x7e, 0xf0];
  }

  /** Column 1 after SubBytes and ShiftRows in round 4. */
  lemma Round4SubShift1(t: Table, s: Block)
    requires t[0x25] == 0x3f
    requires t[0x28] == 0x34
    requires t[0x4d] == 0xe3
    requires t[0x66] == 0x33
    requires s[4] == 0x25 && s[9] == 0x66 && s[14] == 0x4d && s[3] == 0x28
    ensures BytesAt(ShiftRows(SubBytes(t, s)), 4, 0x3f, 0x33, 0xe3, 0x34)
  {
    SubShiftByte(t, s, 1, 0);
    SubShiftByte(t, s, 1, 1);
    SubShiftByte(t, s, 1, 2);
    SubShiftByte(t, s, 1, 3);
  }

  /** Column 1 after MixColumns in round 4. */
  lemma Round4Mix1(x: Block)
    requires BytesAt(x, 4, 0x3f, 0x33, 0xe3, 0x34)
    ensures BytesAt(MixColumns(x), 4, 0xfc, 0x53, 0x8d, 0xf9)
  {
    MixColumnsByte(x, 1, 0);
    MixColumnsByte(x, 1, 1);
    MixColumnsByte(x, 1, 2);
    MixColumnsByte(x, 1, 3);
    assert Column(x, 1) == [0x3f, 0x33, 0xe3, 0x34];
  }

  /** Column 2 after SubBytes and ShiftRows in round 4. */
  lemma Round4SubShift2(t: Table, s: Block)
    requires t[0x24] == 0x36
    requires t[0x40] == 0x09
    requires t[0x6a] == 0x02
    requires t[0xc9] == 0xdd
    requires s[8] == 0x40 && s[13] == 0x24 && s[2] == 0x6a && s[7] == 0xc9
    ensures BytesAt(ShiftRows(SubBytes(t, s)), 8, 0x09, 0x36, 0x02, 0xdd)
  {
    SubShiftByte(t, s, 2, 0);
    SubShiftByte(t, s, 2, 1);
    SubShiftByte(t, s, 2, 2);
    SubShiftByte(t, s, 2, 3);
  }

  /** Column 2 after MixColumns in round 4. */
  lemma Round4Mix2(x: Block)
    requires BytesAt(x, 8, 0x09, 0x36, 0x02, 0xdd)
    ensures BytesAt(MixColumns(x), 8, 0x97, 0xbe, 0x47, 0x8e)
  {
    MixColumnsByte(x, 2, 0);
    MixColumnsByte(x, 2, 1);
    MixColumnsByte(x, 2, 2);
    MixColumnsByte(x, 2, 3);
    assert Column(x, 2) == [0x09, 0x36, 0x02, 0xdd];
  }

  /** Column 3 after SubBytes and ShiftRows in round 4. */
  lemma Round4SubShift3(t: Table, s: Block)
    requires t[0x31] == 0xc7
    requires t[0x39] == 0x12
    requires t[0x57] == 0x5b
    requires t[0x63] == 0xfb
    requires s[12] == 0x57 && s[1] == 0x63 && s[6] == 0x39 && s[11] == 0x31
    ensures BytesAt(ShiftRows(SubBytes(t, s)), 12, 0x5b, 0xfb, 0x12, 0xc7)
  {
    SubShiftByte(t, s, 3, 0);
    SubShiftByte(t, s, 3, 1);
    SubShiftByte(t, s, 3, 2);
    SubShiftByte(t, s, 3, 3);
  }

  /** Column 3 after MixColumns in round 4. */
  lemma Round4Mix3(x: Block)
    requires BytesAt(x, 12, 0x5b, 0xfb, 0x12, 0xc7)
    ensures BytesAt(MixColumns(x), 12, 0x75, 0x47, 0xd6, 0x91)
  {
    MixColumnsByte(x, 3, 0);
    MixColumnsByte(x, 3, 1);
    MixColumnsByte(x, 3, 2);
    MixColumnsByte(x, 3, 3);
    assert Column(x, 3) == [0x5b, 0xfb, 0x12, 0xc7];
  }

  /** Column 0 after AddRoundKey in round 4. */
  lemma Round4AddKey0(m: Block, w: Schedule)
    requires BytesAt(m, 0, 0x63, 0x85, 0xb7, 0x9f)
    requires BytesAt(w, 64, 0x47, 0xf7, 0xf7, 0xbc)
    ensures BytesAt(AddRoundKey(m, w, 4), 0, 0x24, 0x72, 0x40, 0x23)
  {}

  /** Column 1 after AddRoundKey in round 4. */
  lemma Round4AddKey1(m: Block, w: Schedule)
    requires BytesAt(m, 4, 0xfc, 0x53, 0x8d, 0xf9)
    requires BytesAt(w, 68, 0x95, 0x35, 0x3e, 0x03)
    ensures BytesAt(AddRoundKey(m, w, 4), 4, 0x69, 0x66, 0xb3, 0xfa)
  {}

  /** Column 2 after AddRoundKey in round 4. */
  lemma Round4AddKey2(m: Block, w: Schedule)
    requires BytesAt(m, 8, 0x97, 0xbe, 0x47, 0x8e)
    requires BytesAt(w, 72, 0xf9, 0x6c, 0x32, 0xbc)
    ensures BytesAt(AddRoundKey(m, w, 4), 8, 0x6e, 0xd2, 0x75, 0x32)
  {}

  /** Column 3 after AddRoundKey in round 4. */
  lemma Round4AddKey3(m: Block, w: Schedule)
    requires BytesAt(m, 12, 0x75, 0x47, 0xd6, 0x91)
    requires BytesAt(w, 76, 0xfd, 0x05, 0x8d, 0xfd)
    ensures BytesAt(AddRoundKey(m, w, 4), 12, 0x88, 0x42, 0x5b, 0x6c)
  {}

  /** Round 4: the state at its end from the state at its start. */
  lemma Round4(t: Table)
    requires forall b: bv8 :: t[b] == FipsSBox(b)
    requires KeyWord(t, KeyC1, 16) == [0x47, 0xf7, 0xf7, 0xbc]
    requires KeyWord(t, KeyC1, 17) == [0x95, 0x35, 0x3e, 0x03]
    requires KeyWord(t, KeyC1, 18) == [0xf9, 0x6c, 0x32, 0xbc]
    requires KeyWord(t, KeyC1, 19) == [0xfd, 0x05, 0x8d, 0xfd]
    requires BytesAt(State(t, ExpandKey(t, KeyC1), PlainC1, 3), 0, 0xfa, 0x63, 0x6a, 0x28)
    requires BytesAt(State(t, ExpandKey(t, KeyC1), PlainC1, 3), 4, 0x25, 0xb3, 0x39, 0xc9)
    requires BytesAt(State(t, ExpandKey(t, KeyC1), PlainC1, 3), 8, 0x40, 0x66, 0x8a, 0x31)
    requires BytesAt(State(t, ExpandKey(t, KeyC1), PlainC1, 3), 12, 0x57, 0x24, 0x4d, 0x17)
    ensures BytesAt(State(t, ExpandKey(t, KeyC1), PlainC1, 4), 0, 0x24, 0x72, 0x40, 0x23)
    ensures BytesAt(State(t, ExpandKey(t, KeyC1), PlainC1, 4), 4, 0x69, 0x66, 0xb3, 0xfa)
    ensures BytesAt(State(t, ExpandKey(t, KeyC1), PlainC1, 4), 8, 0x6e, 0xd2, 0x75, 0x32)
    ensures BytesAt(State(t, ExpandKey(t, KeyC1), PlainC1, 4), 12, 0x88, 0x42, 0x5b, 0x6c)
  {
    RoundKey4(t);
    var s := State(t, ExpandKey(t, KeyC1), PlainC1, 3);
    Round4Lookupsa(t);
    Round4Lookupsb(t);
    Round4SubShift0(t, s);
    Round4SubShift1(t, s);
    Round4SubShift2(t, s);
    Round4SubShift3(t, s);
    var x := ShiftRows(SubBytes(t, s));
    Round4Mix0(x);
    Round4Mix1(x);
    Round4Mix2(x);
    Round4Mix3(x);
    var m := MixColumns(x);
    Round4AddKey0(m, ExpandKey(t, KeyC1));
    Round4AddKey1(m, ExpandKey(t, KeyC1));
    Round4AddKey2(m, ExpandKey(t, KeyC1));
    Round4AddKey3(m, ExpandKey(t, KeyC1));
  }

  /** Round key 5 as bytes 80..95 of the schedule. */
  lemma RoundKey5(t: Table)
    requires KeyWord(t, KeyC1, 20) == [0x3c, 0xaa, 0xa3, 0xe8]
    requires KeyWord(t, KeyC1, 21) == [0xa9, 0x9f, 0x9d, 0xeb]
    requires KeyWord(t, KeyC1, 22) == [0x50, 0xf3, 0xaf, 0x57]
    requires KeyWord(t, KeyC1, 23) == [0xad, 0xf6, 0x22, 0xaa]
    ensures BytesAt(ExpandKey(t, KeyC1), 80, 0x3c, 0xaa, 0xa3, 0xe8)
    ensures BytesAt(ExpandKey(t, KeyC1), 84, 0xa9, 0x9f, 0x9d, 0xeb)
    ensures BytesAt(ExpandKey(t, KeyC1), 88, 0x50, 0xf3, 0xaf, 0x57)
    ensures BytesAt(ExpandKey(t, KeyC1), 92, 0xad, 0xf6, 0x22, 0xaa)
  {
    ExpandKeyByte(t, KeyC1, 20, 0);
    ExpandKeyByte(t, KeyC1, 20, 1);
    ExpandKeyByte(t, KeyC1, 20, 2);
    ExpandKeyByte(t, KeyC1, 20, 3);
    ExpandKeyByte(t, KeyC1, 21, 0);
    ExpandKeyByte(t, KeyC1, 21, 1);
    ExpandKeyByte(t, KeyC1, 21, 2);
    ExpandKeyByte(t, KeyC1, 21, 3);
    ExpandKeyByte(t, KeyC1, 22, 0);
    ExpandKeyByte(t, KeyC1, 22, 1);
    ExpandKeyByte(t, KeyC1, 22, 2);
    ExpandKeyByte(t, KeyC1, 22, 3);
    ExpandKeyByte(t, KeyC1, 23, 0);
    ExpandKeyByte(t, KeyC1, 23, 1);
    ExpandKeyByte(t, KeyC1, 23, 2);
    ExpandKeyByte(t, KeyC1, 23, 3);
  }

  /** Entries of Figure 7 that round 5 reads. */
  lemma Round5LookupsaValues()
    ensures FipsSBox(0x23) == 0x26
    ensures FipsSBox(0x24) == 0x36
    ensures FipsSBox(0x32) == 0x23
    ensures FipsSBox(0x40) == 0x09
    ensures FipsSBox(0x42) == 0x2c
    ensures FipsSBox(0x5b) == 0x39
    ensures FipsSBox(0x66) == 0x33
    ensures FipsSBox(0x69) == 0xf9
  {}

  /** Entries of the table that round 5 reads. */
  lemma Round5Lookupsa(t: Table)
    requires forall b: bv8 :: t[b] == FipsSBox(b)
    ensures t[0x23] == 0x26
    ensures t[0x24] == 0x36
    ensures t[0x32] == 0x23
    ensures t[0x40] == 0x09
    ensures t[0x42] == 0x2c
    ensures t[0x5b] == 0x39
    ensures t[0x66] == 0x33
    ensures t[0x69] == 0xf9
  {
    Round5LookupsaValues();
    FipsAt(t, 0x23, 0x26);
    FipsAt(t, 0x24, 0x36);
    FipsAt(t, 0x32, 0x23);
    FipsAt(t, 0x40, 0x09);
    FipsAt(t, 0x42, 0x2c);
    FipsAt(t, 0x5b, 0x39);
    FipsAt(t, 0x66, 0x33);
    FipsAt(t, 0x69, 0xf9);
  }

  /** Entries of Figure 7 that round 5 reads. */
  lemma Round5LookupsbValues()
    ensures FipsSBox(0x6c) == 0x50
    ensures FipsSBox(0x6e) == 0x9f
    ensures FipsSBox(0x72) == 0x40
    ensures FipsSBox(0x75) == 0x9d
    ensures FipsSBox(0x88) == 0xc4
    ensures FipsSBox(0xb3) == 0x6d
    ensures FipsSBox(0xd2) == 0xb5
    ensures FipsSBox(0xfa) == 0x2d
  {}

  /** Entries of the table that round 5 reads. */
  lemma Round5Lookupsb(t: Table)
    requires forall b: bv8 :: t[b] == FipsSBox(b)
    ensures t[0x6c] == 0x50
    ensures t[0x6e] == 0x9f
    ensures t[0x72] == 0x40
    ensures t[0x75] == 0x9d
    ensures t[0x88] == 0xc4
    ensures t[0xb3] == 0x6d
    ensures t[0xd2] == 0xb5
    ensures t[0xfa] == 0x2d
  {
    Round5LookupsbValues();
    FipsAt(t, 0x6c, 0x50);
    FipsAt(t, 0x6e, 0x9f);
    FipsAt(t, 0x72, 0x40);
    FipsAt(t, 0x75, 0x9d);
    FipsAt(t, 0x88, 0xc4);
    FipsAt(t, 0xb3, 0x6d);
    FipsAt(t, 0xd2, 0xb5);
    FipsAt(t, 0xfa, 0x2d);
  }

  /** Column 0 after SubBytes and ShiftRows in round 5. */
  lemma Round5SubShift0(t: Table, s: Block)
    requires t[0x24] == 0x36
    requires t[0x66] == 0x33
    requires t[0x6c] == 0x50
    requires t[0x75] == 0x9d
    requires s[0] == 0x24 && s[5] == 0x66 && s[10] == 0x75 && s[15] == 0x6c
    ensures BytesAt(ShiftRows(SubBytes(t, s)), 0, 0x36, 0x33, 0x9d, 0x50)
  {
    SubShiftByte(t, s, 0, 0);
    SubShiftByte(t, s, 0, 1);
    SubShiftByte(t, s, 0, 2);
    SubShiftByte(t, s, 0, 3);
  }

  /** Column 0 after MixColumns in round 5. */
  lemma Round5Mix0(x: Block)
    requires BytesAt(x, 0, 0x36, 0x33, 0x9d, 0x50)
    ensures BytesAt(MixColumns(x), 0, 0xf4, 0xbc, 0xd4, 0x54)
  {
    MixColumnsByte(x, 0, 0);
    MixColumnsByte(x, 0, 1);
    MixColumnsByte(x, 0, 2);
    MixColumnsByte(x, 0, 3);
    assert Column(x, 0) == [0x36, 0x33, 0x9d, 0x50];
  }

  /** Column 1 after SubBytes and ShiftRows in round 5. */
  lemma Round5SubShift1(t: Table, s: Block)
    requires t[0x23] == 0x26
    requires t[0x5b] == 0x39
    requires t[0x69] == 0xf9
    requires t[0xd2] == 0xb5
    requires s[4] == 0x69 && s[9] == 0xd2 && s[14] == 0x5b && s[3] == 0x23
    ensures BytesAt(ShiftRows(SubBytes(t, s)), 4, 0xf9, 0xb5, 0x39, 0x26)
  {
    SubShiftByte(t, s, 1, 0);
    SubShiftByte(t, s, 1, 1);
    SubShiftByte(t, s, 1, 2);
    SubShiftByte(t, s, 1, 3);
  }

  /** Column 1 after MixColumns in round 5. */
  lemma Round5Mix1(x: Block)
    requires BytesAt(x, 4, 0xf9, 0xb5, 0x39, 0x26)
    ensures BytesAt(MixColumns(x), 4, 0x32, 0xe5, 0x54, 0xd0)
  {
    MixColumnsByte(x, 1, 0);
    MixColumnsByte(x, 1, 1);
    MixColumnsByte(x, 1, 2);
    MixColumnsByte(x, 1, 3);
    assert Column(x, 1) == [0xf9, 0xb5, 0x39, 0x26];
  }

  /** Column 2 after SubBytes and ShiftRows in round 5. */
  lemma Round5SubShift2(t: Table, s: Block)
    requires t[0x40] == 0x09
    requires t[0x42] == 0x2c
    requires t[0x6e] == 0x9f
    requires t[0xfa] == 0x2d
    requires s[8] == 0x6e && s[13] == 0x42 && s[2] == 0x40 && s[7] == 0xfa
    ensures BytesAt(ShiftRows(SubBytes(t, s)), 8, 0x9f, 0x2c, 0x09, 0x2d)
  {
    SubShiftByte(t, s, 2, 0);
    SubShiftByte(t, s, 2, 1);
    SubShiftByte(t, s, 2, 2);
    SubShiftByte(t, s, 2, 3);
  }

  /** Column 2 after MixColumns in round 5. */
  lemma Round5Mix2(x: Block)
    requires BytesAt(x, 8, 0x9f, 0x2c, 0x09, 0x2d)
    ensures BytesAt(MixColumns(x), 8, 0x75, 0xf1, 0xd6, 0xc5)
  {
    MixColumnsByte(x, 2, 0);
    MixColumnsByte(x, 2, 1);
    MixColumnsByte(x, 2, 2);
    MixColumnsByte(x, 2, 3);
    assert Column(x, 2) == [0x9f, 0x2c, 0x09, 0x2d];
  }

  /** Column 3 after SubBytes and ShiftRows in round 5. */
  lemma Round5SubShift3(t: Table, s: Block)
    requires t[0x32] == 0x23
    requires t[0x72] == 0x40
    requires t[0x88] == 0xc4
    requires t[0xb3] == 0x6d
    requires s[12] == 0x88 && s[1] == 0x72 && s[6] == 0xb3 && s[11] == 0x32
    ensures BytesAt(ShiftRows(SubBytes(t, s)), 12, 0xc4, 0x40, 0x6d, 0x23)
  {
    SubShiftByte(t, s, 3, 0);
    SubShiftByte(t, s, 3, 1);
    SubShiftByte(t, s, 3, 2);
    SubShiftByte(t, s, 3, 3);
  }

  /** Column 3 after MixColumns in round 5. */
  lemma Round5Mix3(x: Block)
    requires BytesAt(x, 12, 0xc4, 0x40, 0x6d, 0x23)
    ensures BytesAt(MixColumns(x), 12, 0x1d, 0xd0, 0x3b, 0x3c)
  {
    MixColumnsByte(x, 3, 0);
    MixColumnsByte(x, 3, 1);
    MixColumnsByte(x, 3, 2);
    MixColumnsByte(x, 3, 3);
    assert Column(x, 3) == [0xc4, 0x40, 0x6d, 0x23];
  }

  /** Column 0 after AddRoundKey in round 5. */
  lemma Round5AddKey0(m: Block, w: Schedule)
    requires BytesAt(m, 0, 0xf4, 0xbc, 0xd4, 0x54)
    requires BytesAt(w, 80, 0x3c, 0xaa, 0xa3, 0xe8)
    ensures BytesAt(AddRoundKey(m, w, 5), 0, 0xc8, 0x16, 0x77, 0xbc)
  {}

  /** Column 1 after AddRoundKey in round 5. */
  lemma Round5AddKey1(m: Block, w: Schedule)
    requires BytesAt(m, 4, 0x32, 0xe5, 0x54, 0xd0)
    requires BytesAt(w, 84, 0xa9, 0x9f, 0x9d, 0xeb)
    ensures BytesAt(AddRoundKey(m, w, 5), 4, 0x9b, 0x7a, 0xc9, 0x3b)
  {}

  /** Column 2 after AddRoundKey in round 5. */
  lemma Round5AddKey2(m: Block, w: Schedule)
    requires BytesAt(m, 8, 0x75, 0xf1, 0xd6, 0xc5)
    requires BytesAt(w, 88, 0x50, 0xf3, 0xaf, 0x57)
    ensures BytesAt(AddRoundKey(m, w, 5), 8, 0x25, 0x02, 0x79, 0x92)
  {}

  /** Column 3 after AddRoundKey in round 5. */
  lemma Round5AddKey3(m: Block, w: Schedule)
    requires BytesAt(m, 12, 0x1d, 0xd0, 0x3b, 0x3c)
    requires BytesAt(w, 92, 0xad, 0xf6, 0x22, 0xaa)
    ensures BytesAt(AddRoundKey(m, w, 5), 12, 0xb0, 0x26, 0x19, 0x96)
  {}

  /** Round 5: the state at its end from the state at its start. */
  lemma Round5(t: Table)
    requires forall b: bv8 :: t[b] == FipsSBox(b)
    requires KeyWord(t, KeyC1, 20) == [0x3c, 0xaa, 0xa3, 0xe8]
    requires KeyWord(t, KeyC1, 21) == [0xa9, 0x9f, 0x9d, 0xeb]
    requires KeyWord(t, KeyC1, 22) == [0x50, 0xf3, 0xaf, 0x57]
    requires KeyWord(t, KeyC1, 23) == [0xad, 0xf6, 0x22, 0xaa]
    requires BytesAt(State(t, ExpandKey(t, KeyC1), PlainC1, 4), 0, 0x24, 0x72, 0x40, 0x23)
    requires BytesAt(State(t, ExpandKey(t, KeyC1), PlainC1, 4), 4, 0x69, 0x66, 0xb3, 0xfa)
    requires BytesAt(State(t, ExpandKey(t, KeyC1), PlainC1, 4), 8, 0x6e, 0xd2, 0x75, 0x32)
    requires BytesAt(State(t, ExpandKey(t, KeyC1), PlainC1, 4), 12, 0x88, 0x42, 0x5b, 0x6c)
    ensures BytesAt(State(t, ExpandKey(t, KeyC1), PlainC1, 5), 0, 0xc8, 0x16, 0x77, 0xbc)
    ensures BytesAt(State(t, ExpandKey(t, KeyC1), PlainC1, 5), 4, 0x9b, 0x7a, 0xc9, 0x3b)
    ensures BytesAt(State(t, ExpandKey(t, KeyC1), PlainC1, 5), 8, 0x25, 0x02, 0x79, 0x92)
    ensures BytesAt(State(t, ExpandKey(t, KeyC1), PlainC1, 5), 12, 0xb0, 0x26, 0x19, 0x96)
  {
    RoundKey5(t);
    var s := State(t, ExpandKey(t, KeyC1), PlainC1, 4);
    Round5Lookupsa(t);
    Round5Lookupsb(t);
    Round5SubShift0(t, s);
    Round5SubShift1(t, s);
    Round5SubShift2(t, s);
    Round5SubShift3(t, s);
    var x := ShiftRows(SubBytes(t, s));
    Round5Mix0(x);
    Round5Mix1(x);
    Round5Mix2(x);
    Round5Mix3(x);
    var m := MixColumns(x);
    Round5AddKey0(m, ExpandKey(t, KeyC1));
    Round5AddKey1(m, ExpandKey(t, KeyC1));
    Round5AddKey2(m, ExpandKey(t, KeyC1));
    Round5AddKey3(m, ExpandKey(t, KeyC1));
  }

  /** Round key 6 as bytes 96..111 of the schedule. */
  lemma RoundKey6(t: Table)
    requires KeyWord(t, KeyC1, 24) == [0x5e, 0x39, 0x0f, 0x7d]
    requires KeyWord(t, KeyC1, 25) == [0xf7, 0xa6, 0x92, 0x96]
    requires KeyWord(t, KeyC1, 26) == [0xa7, 0x55, 0x3d, 0xc1]
    requires KeyWord(t, KeyC1, 27) == [0x0a, 0xa3, 0x1f, 0x6b]
    ensures BytesAt(ExpandKey(t, KeyC1), 96, 0x5e, 0x39, 0x0f, 0x7d)
    ensures BytesAt(ExpandKey(t, KeyC1), 100, 0xf7, 0xa6, 0x92, 0x96)
    ensures BytesAt(ExpandKey(t, KeyC1), 104, 0xa7, 0x55, 0x3d, 0xc1)
    ensures BytesAt(ExpandKey(t, KeyC1), 108, 0x0a, 0xa3, 0x1f, 0x6b)
  {
    ExpandKeyByte(t, KeyC1, 24, 0);
    ExpandKeyByte(t, KeyC1, 24, 1);
    ExpandKeyByte(t, KeyC1, 24, 2);
    ExpandKeyByte(t, KeyC1, 24, 3);
    ExpandKeyByte(t, KeyC1, 25, 0);
    ExpandKeyByte(t, KeyC1, 25, 1);
    ExpandKeyByte(t, KeyC1, 25, 2);
    ExpandKeyByte(t, KeyC1, 25, 3);
    ExpandKeyByte(t, KeyC1, 26, 0);
    ExpandKeyByte(t, KeyC1, 26, 1);
    ExpandKeyByte(t, KeyC1, 26, 2);
    ExpandKeyByte(t, KeyC1, 26, 3);
    ExpandKeyByte(t, KeyC1, 27, 0);
    ExpandKeyByte(t, KeyC1, 27, 1);
    ExpandKeyByte(t, KeyC1, 27, 2);
    ExpandKeyByte(t, KeyC1, 27, 3);
  }

  /** Entries of Figure 7 that round 6 reads. */
  lemma Round6LookupsaValues()
    ensures FipsSBox(0x02) == 0x77
    ensures FipsSBox(0x16) == 0x47
    ensures FipsSBox(0x19) == 0xd4
    ensures FipsSBox(0x25) == 0x3f
    ensures FipsSBox(0x26) == 0xf7
    ensures FipsSBox(0x3b) == 0xe2
    ensures FipsSBox(0x77) == 0xf5
    ensures FipsSBox(0x79) == 0xb6
  {}

  /** Entries of the table that round 6 reads. */
  lemma Round6Lookupsa(t: Table)
    requires forall b: bv8 :: t[b] == FipsSBox(b)
    ensures t[0x02] == 0x77
    ensures t[0x16] == 0x47
    ensures t[0x19] == 0xd4
    ensures t[0x25] == 0x3f
    ensures t[0x26] == 0xf7
    ensures t[0x3b] == 0xe2
    ensures t[0x77] == 0xf5
    ensures t[0x79] == 0xb6
  {
    Round6LookupsaValues();
    FipsAt(t, 0x02, 0x77);
    FipsAt(t, 0x16, 0x47);
    FipsAt(t, 0x19, 0xd4);
    FipsAt(t, 0x25, 0x3f);
    FipsAt(t, 0x26, 0xf7);
    FipsAt(t, 0x3b, 0xe2);
    FipsAt(t, 0x77, 0xf5);
    FipsAt(t, 0x79, 0xb6);
  }

  /** Entries of Figure 7 that round 6 reads. */
  lemma Round6LookupsbValues()
    ensures FipsSBox(0x7a) == 0xda
    ensures FipsSBox(0x92) == 0x4f
    ensures FipsSBox(0x96) == 0x90
    ensures FipsSBox(0x9b) == 0x14
    ensures FipsSBox(0xb0) == 0xe7
    ensures FipsSBox(0xbc) == 0x65
    ensures FipsSBox(0xc8) == 0xe8
    ensures FipsSBox(0xc9) == 0xdd
  {}

  /** Entries of the table that round 6 reads. */
  lemma Round6Lookupsb(t: Table)
    requires forall b: bv8 :: t[b] == FipsSBox(b)
    ensures t[0x7a] == 0xda
    ensures t[0x92] == 0x4f
    ensures t[0x96] == 0x90
    ensures t[0x9b] == 0x14
    ensures t[0xb0] == 0xe7
    ensures t[0xbc] == 0x65
    ensures t[0xc8] == 0xe8
    ensures t[0xc9] == 0xdd
  {
    Round6LookupsbValues();
    FipsAt(t, 0x7a, 0xda);
    FipsAt(t, 0x92, 0x4f);
    FipsAt(t, 0x96, 0x90);
    FipsAt(t, 0x9b, 0x14);
    FipsAt(t, 0xb0, 0xe7);
    FipsAt(t, 0xbc, 0x65);
    FipsAt(t, 0xc8, 0xe8);
    FipsAt(t, 0xc9, 0xdd);
  }

  /** Column 0 after SubBytes and ShiftRows in round 6. */
  lemma Round6SubShift0(t: Table, s: Block)
    requires t[0x79] == 0xb6
    requires t[0x7a] == 0xda
    requires t[0x96] == 0x90
    requires t[0xc8] == 0xe8
    requires s[0] == 0xc8 && s[5] == 0x7a && s[10] == 0x79 && s[15] == 0x96
    ensures BytesAt(ShiftRows(SubBytes(t, s)), 0, 0xe8, 0xda, 0xb6, 0x90)
  {
    SubShiftByte(t, s, 0, 0);
    SubShiftByte(t, s, 0, 1);
    SubShiftByte(t, s, 0, 2);
    SubShiftByte(t, s, 0, 3);
  }

  /** Column 0 after MixColumns in round 6. */
  lemma Round6Mix0(x: Block)
    requires BytesAt(x, 0, 0xe8, 0xda, 0xb6, 0x90)
    ensures BytesAt(MixColumns(x), 0, 0x98, 0x16, 0xee, 0x74)
  {
    MixColumnsByte(x, 0, 0);
    MixColumnsByte(x, 0, 1);
    MixColumnsByte(x, 0, 2);
    MixColumnsByte(x, 0, 3);
    assert Column(x, 0) == [0xe8, 0xda, 0xb6, 0x90];
  }

  /** Column 1 after SubBytes and ShiftRows in round 6. */
  lemma Round6SubShift1(t: Table, s: Block)
    requires t[0x02] == 0x77
    requires t[0x19] == 0xd4
    requires t[0x9b] == 0x14
    requires t[0xbc] == 0x65
    requires s[4] == 0x9b && s[9] == 0x02 && s[14] == 0x19 && s[3] == 0xbc
    ensures BytesAt(ShiftRows(SubBytes(t, s)), 4, 0x14, 0x77, 0xd4, 0x65)
  {
    SubShiftByte(t, s, 1, 0);
    SubShiftByte(t, s, 1, 1);
    SubShiftByte(t, s, 1, 2);
    SubShiftByte(t, s, 1, 3);
  }

  /** Column 1 after MixColumns in round 6. */
  lemma Round6Mix1(x: Block)
    requires BytesAt(x, 4, 0x14, 0x77, 0xd4, 0x65)
    ensures BytesAt(MixColumns(x), 4, 0x00, 0xf8, 0x7f, 0x55)
  {
    MixColumnsByte(x, 1, 0);
    MixColumnsByte(x, 1, 1);
    MixColumnsByte(x, 1, 2);
    MixColumnsByte(x, 1, 3);
    assert Column(x, 1) == [0x14, 0x77, 0xd4, 0x65];
  }

  /** Column 2 after SubBytes and ShiftRows in round 6. */
  lemma Round6SubShift2(t: Table, s: Block)
    requires t[0x25] == 0x3f
    requires t[0x26] == 0xf7
    requires t[0x3b] == 0xe2
    requires t[0x77] == 0xf5
    requires s[8] == 0x25 && s[13] == 0x26 && s[2] == 0x77 && s[7] == 0x3b
    ensures BytesAt(ShiftRows(SubBytes(t, s)), 8, 0x3f, 0xf7, 0xf5, 0xe2)
  {
    SubShiftByte(t, s, 2, 0);
    SubShiftByte(t, s, 2, 1);
    SubShiftByte(t, s, 2, 2);
    SubShiftByte(t, s, 2, 3);
  }

  /** Column 2 after MixColumns in round 6. */
  lemma Round6Mix2(x: Block)
    requires BytesAt(x, 8, 0x3f, 0xf7, 0xf5, 0xe2)
    ensures BytesAt(MixColumns(x), 8, 0x6b, 0x2c, 0x04, 0x9c)
  {
    MixColumnsByte(x, 2, 0);
    MixColumnsByte(x, 2, 1);
    MixColumnsByte(x, 2, 2);
    MixColumnsByte(x, 2, 3);
    assert Column(x, 2) == [0x3f, 0xf7, 0xf5, 0xe2];
  }

  /** Column 3 after SubBytes and ShiftRows in round 6. */
  lemma Round6SubShift3(t: Table, s: Block)
    requires t[0x16] == 0x47
    requires t[0x92] == 0x4f
    requires t[0xb0] == 0xe7
    requires t[0xc9] == 0xdd
    requires s[12] == 0xb0 && s[1] == 0x16 && s[6] == 0xc9 && s[11] == 0x92
    ensures BytesAt(ShiftRows(SubBytes(t, s)), 12, 0xe7, 0x47, 0xdd, 0x4f)
  {
    SubShiftByte(t, s, 3, 0);
    SubShiftByte(t, s, 3, 1);
    SubShiftByte(t, s, 3, 2);
    SubShiftByte(t, s, 3, 3);
  }

  /** Column 3 after MixColumns in round 6. */
  lemma Round6Mix3(x: Block)
    requires BytesAt(x, 12, 0xe7, 0x47, 0xdd, 0x4f)
    ensures BytesAt(MixColumns(x), 12, 0x8e, 0x5a, 0xd0, 0x36)
  {
    MixColumnsByte(x, 3, 0);
    MixColumnsByte(x, 3, 1);
    MixColumnsByte(x, 3, 2);
    MixColumnsByte(x, 3, 3);
    assert Column(x, 3) == [0xe7, 0x47, 0xdd, 0x4f];
  }

  /** Column 0 after AddRoundKey in round 6. */
  lemma Round6AddKey0(m: Block, w: Schedule)
    requires BytesAt(m, 0, 0x98, 0x16, 0xee, 0x74)
    requires BytesAt(w, 96, 0x5e, 0x39, 0x0f, 0x7d)
    ensures BytesAt(AddRoundKey(m, w, 6), 0, 0xc6, 0x2f, 0xe1, 0x09)
  {}

  /** Column 1 after AddRoundKey in round 6. */
  lemma Round6AddKey1(m: Block, w: Schedule)
    requires BytesAt(m, 4, 0x00, 0xf8, 0x7f, 0x55)
    requires BytesAt(w, 100, 0xf7, 0xa6, 0x92, 0x96)
    ensures BytesAt(AddRoundKey(m, w, 6), 4, 0xf7, 0x5e, 0xed, 0xc3)
  {}

  /** Column 2 after AddRoundKey in round 6. */
  lemma Round6AddKey2(m: Block, w: Schedule)
    requires BytesAt(m, 8, 0x6b, 0x2c, 0x04, 0x9c)
    requires BytesAt(w, 104, 0xa7, 0x55, 0x3d, 0xc1)
    ensures BytesAt(AddRoundKey(m, w, 6), 8, 0xcc, 0x79, 0x39, 0x5d)
  {}

  /** Column 3 after AddRoundKey in round 6. */
  lemma Round6AddKey3(m: Block, w: Schedule)
    requires BytesAt(m, 12, 0x8e, 0x5a, 0xd0, 0x36)
    requires BytesAt(w, 108, 0x0a, 0xa3, 0x1f, 0x6b)
    ensures BytesAt(AddRoundKey(m, w, 6), 12, 0x84, 0xf9, 0xcf, 0x5d)
  {}

  /** Round 6: the state at its end from the state at its start. */
  lemma Round6(t: Table)
    requires forall b: bv8 :: t[b] == FipsSBox(b)
    requires KeyWord(t, KeyC1, 24) == [0x5e, 0x39, 0x0f, 0x7d]
    requires KeyWord(t, KeyC1, 25) == [0xf7, 0xa6, 0x92, 0x96]
    requires KeyWord(t, KeyC1, 26) == [0xa7, 0x55, 0x3d, 0xc1]
    requires KeyWord(t, KeyC1, 27) == [0x0a, 0xa3, 0x1f, 0x6b]
    requires BytesAt(State(t, ExpandKey(t, KeyC1), PlainC1, 5), 0, 0xc8, 0x16, 0x77, 0xbc)
    requires BytesAt(State(t, ExpandKey(t, KeyC1), PlainC1, 5), 4, 0x9b, 0x7a, 0xc9, 0x3b)
    requires BytesAt(State(t, ExpandKey(t, KeyC1), PlainC1, 5), 8, 0x25, 0x02, 0x79, 0x92)
    requires BytesAt(State(t, ExpandKey(t, KeyC1), PlainC1, 5), 12, 0xb0, 0x26, 0x19, 0x96)
    ensures BytesAt(State(t, ExpandKey(t, KeyC1), PlainC1, 6), 0, 0xc6, 0x2f, 0xe1, 0x09)
    ensures BytesAt(State(t, ExpandKey(t, KeyC1), PlainC1, 6), 4, 0xf7, 0x5e, 0xed, 0xc3)
    ensures BytesAt(State(t, ExpandKey(t, KeyC1), PlainC1, 6), 8, 0xcc, 0x79, 0x39, 0x5d)
    ensures BytesAt(State(t, ExpandKey(t, KeyC1), PlainC1, 6), 12, 0x84, 0xf9, 0xcf, 0x5d)
  {
    RoundKey6(t);
    var s := State(t, ExpandKey(t, KeyC1), PlainC1, 5);
    Round6Lookupsa(t);
    Round6Lookupsb(t);
    Round6SubShift0(t, s);
    Round6SubShift1(t, s);
    Round6SubShift2(t, s);
    Round6SubShift3(t, s);
    var x := ShiftRows(SubBytes(t, s));
    Round6Mix0(x);
    Round6Mix1(x);
    Round6Mix2(x);
    Round6Mix3(x);
    var m := MixColumns(x);
    Round6AddKey0(m, ExpandKey(t, KeyC1));
    Round6AddKey1(m, ExpandKey(t, KeyC1));
    Round6AddKey2(m, ExpandKey(t, KeyC1));
    Round6AddKey3(m, ExpandKey(t, KeyC1));
  }

  /** Round key 7 as bytes 112..127 of the schedule. */
  lemma RoundKey7(t: Table)
    requires KeyWord(t, KeyC1, 28) == [0x14, 0xf9, 0x70, 0x1a]
    requires KeyWord(t, KeyC1, 29) == [0xe3, 0x5f, 0xe2, 0x8c]
    requires KeyWord(t, KeyC1, 30) == [0x44, 0x0a, 0xdf, 0x4d]
    requires KeyWord(t, KeyC1, 31) == [0x4e, 0xa9, 0xc0, 0x26]
    ensures BytesAt(ExpandKey(t, KeyC1), 112, 0x14, 0xf9, 0x70, 0x1a)
    ensures BytesAt(ExpandKey(t, KeyC1), 116, 0xe3, 0x5f, 0xe2, 0x8c)
    ensures BytesAt(ExpandKey(t, KeyC1), 120, 0x44, 0x0a, 0xdf, 0x4d)
    ensures BytesAt(ExpandKey(t, KeyC1), 124, 0x4e, 0xa9, 0xc0, 0x26)
  {
    ExpandKeyByte(t, KeyC1, 28, 0);
    ExpandKeyByte(t, KeyC1, 28, 1);
    ExpandKeyByte(t, KeyC1, 28, 2);
    ExpandKeyByte(t, KeyC1, 28, 3);
    ExpandKeyByte(t, KeyC1, 29, 0);
    ExpandKeyByte(t, KeyC1, 29, 1);
    ExpandKeyByte(t, KeyC1, 29, 2);
    ExpandKeyByte(t, KeyC1, 29, 3);
    ExpandKeyByte(t, KeyC1, 30, 0);
    ExpandKeyByte(t, KeyC1, 30, 1);
    ExpandKeyByte(t, KeyC1, 30, 2);
    ExpandKeyByte(t, KeyC1, 30, 3);
    ExpandKeyByte(t, KeyC1, 31, 0);
    ExpandKeyByte(t, KeyC1, 31, 1);
    ExpandKeyByte(t, KeyC1, 31, 2);
    ExpandKeyByte(t, KeyC1, 31, 3);
  }

  /** Entries of Figure 7 that round 7 reads. */
  lemma Round7LookupsaValues()
    ensures FipsSBox(0x09) == 0x01
    ensures FipsSBox(0x2f) == 0x15
    ensures FipsSBox(0x39) == 0x12
    ensures FipsSBox(0x5d) == 0x4c
    ensures FipsSBox(0x5e) == 0x58
    ensures FipsSBox(0x79) == 0xb6
    ensures FipsSBox(0x84) == 0x5f
    ensures FipsSBox(0xc3) == 0x2e
  {}

  /** Entries of the table that round 7 reads. */
  lemma Round7Lookupsa(t: Table)
    requires forall b: bv8 :: t[b] == FipsSBox(b)
    ensures t[0x09] == 0x01
    ensures t[0x2f] == 0x15
    ensures t[0x39] == 0x12
    ensures t[0x5d] == 0x4c
    ensures t[0x5e] == 0x58
    ensures t[0x79] == 0xb6
    ensures t[0x84] == 0x5f
    ensures t[0xc3] == 0x2e
  {
    Round7LookupsaValues();
    FipsAt(t, 0x09, 0x01);
    FipsAt(t, 0x2f, 0x15);
    FipsAt(t, 0x39, 0x12);
    FipsAt(t, 0x5d, 0x4c);
    FipsAt(t, 0x5e, 0x58);
    FipsAt(t, 0x79, 0xb6);
    FipsAt(t, 0x84, 0x5f);
    FipsAt(t, 0xc3, 0x2e);
  }

  /** Entries of Figure 7 that round 7 reads. */
  lemma Round7LookupsbValues()
    ensures FipsSBox(0xc6) == 0xb4
    ensures FipsSBox(0xcc) == 0x4b
    ensures FipsSBox(0xcf) == 0x8a
    ensures FipsSBox(0xe1) == 0xf8
    ensures FipsSBox(0xed) == 0x55
    ensures FipsSBox(0xf7) == 0x68
    ensures FipsSBox(0xf9) == 0x99
  {}

  /** Entries of the table that round 7 reads. */
  lemma Round7Lookupsb(t: Table)
    requires forall b: bv8 :: t[b] == FipsSBox(b)
    ensures t[0xc6] == 0xb4
    ensures t[0xcc] == 0x4b
    ensures t[0xcf] == 0x8a
    ensures t[0xe1] == 0xf8
    ensures t[0xed] == 0x55
    ensures t[0xf7] == 0x68
    ensures t[0xf9] == 0x99
  {
    Round7LookupsbValues();
    FipsAt(t, 0xc6, 0xb4);
    FipsAt(t, 0xcc, 0x4b);
    FipsAt(t, 0xcf, 0x8a);
    FipsAt(t, 0xe1, 0xf8);
    FipsAt(t, 0xed, 0x55);
    FipsAt(t, 0xf7, 0x68);
    FipsAt(t, 0xf9, 0x99);
  }

  /** Column 0 after SubBytes and ShiftRows in round 7. */
  lemma Round7SubShift0(t: Table, s: Block)
    requires t[0x39] == 0x12
    requires t[0x5d] == 0x4c
    requires t[0x5e] == 0x58
    requires t[0xc6] == 0xb4
    requires s[0] == 0xc6 && s[5] == 0x5e && s[10] == 0x39 && s[15] == 0x5d
    ensures BytesAt(ShiftRows(SubBytes(t, s)), 0, 0xb4, 0x58, 0x12, 0x4c)
  {
    SubShiftByte(t, s, 0, 0);
    SubShiftByte(t, s, 0, 1);
    SubShiftByte(t, s, 0, 2);
    SubShiftByte(t, s, 0, 3);
  }

  /** Column 0 after MixColumns in round 7. */
  lemma Round7Mix0(x: Block)
    requires BytesAt(x, 0, 0xb4, 0x58, 0x12, 0x4c)
    ensures BytesAt(MixColumns(x), 0, 0xc5, 0x7e, 0x1c, 0x15)
  {
    MixColumnsByte(x, 0, 0);
    MixColumnsByte(x, 0, 1);
    MixColumnsByte(x, 0, 2);
    MixColumnsByte(x, 0, 3);
    assert Column(x, 0) == [0xb4, 0x58, 0x12, 0x4c];
  }

  /** Column 1 after SubBytes and ShiftRows in round 7. */
  lemma Round7SubShift1(t: Table, s: Block)
    requires t[0x09] == 0x01
    requires t[0x79] == 0xb6
    requires t[0xcf] == 0x8a
    requires t[0xf7] == 0x68
    requires s[4] == 0xf7 && s[9] == 0x79 && s[14] == 0xcf && s[3] == 0x09
    ensures BytesAt(ShiftRows(SubBytes(t, s)), 4, 0x68, 0xb6, 0x8a, 0x01)
  {
    SubShiftByte(t, s, 1, 0);
    SubShiftByte(t, s, 1, 1);
    SubShiftByte(t, s, 1, 2);
    SubShiftByte(t, s, 1, 3);
  }

  /** Column 1 after MixColumns in round 7. */
  lemma Round7Mix1(x: Block)
    requires BytesAt(x, 4, 0x68, 0xb6, 0x8a, 0x01)
    ensures BytesAt(MixColumns(x), 4, 0x9a, 0x9b, 0xd2, 0x86)
  {
    MixColumnsByte(x, 1, 0);
    MixColumnsByte(x, 1, 1);
    MixColumnsByte(x, 1, 2);
    MixColumnsByte(x, 1, 3);
    assert Column(x, 1) == [0x68, 0xb6, 0x8a, 0x01];
  }

  /** Column 2 after SubBytes and ShiftRows in round 7. */
  lemma Round7SubShift2(t: Table, s: Block)
    requires t[0xc3] == 0x2e
    requires t[0xcc] == 0x4b
    requires t[0xe1] == 0xf8
    requires t[0xf9] == 0x99
    requires s[8] == 0xcc && s[13] == 0xf9 && s[2] == 0xe1 && s[7] == 0xc3
    ensures BytesAt(ShiftRows(SubBytes(t, s)), 8, 0x4b, 0x99, 0xf8, 0x2e)
  {
    SubShiftByte(t, s, 2, 0);
    SubShiftByte(t, s, 2, 1);
    SubShiftByte(t, s, 2, 2);
    SubShiftByte(t, s, 2, 3);
  }

  /** Column 2 after MixColumns in round 7. */
  lemma Round7Mix2(x: Block)
    requires BytesAt(x, 8, 0x4b, 0x99, 0xf8, 0x2e)
    ensures BytesAt(MixColumns(x), 8, 0xf0, 0x5f, 0x4b, 0xe0)
  {
    MixColumnsByte(x, 2, 0);
    MixColumnsByte(x, 2, 1);
    MixColumnsByte(x, 2, 2);
    MixColumnsByte(x, 2, 3);
    assert Column(x, 2) == [0x4b, 0x99, 0xf8, 0x2e];
  }

  /** Column 3 after SubBytes and ShiftRows in round 7. */
  lemma Round7SubShift3(t: Table, s: Block)
    requires t[0x2f] == 0x15
    requires t[0x5d] == 0x4c
    requires t[0x84] == 0x5f
    requires t[0xed] == 0x55
    requires s[12] == 0x84 && s[1] == 0x2f && s[6] == 0xed && s[11] == 0x5d
    ensures BytesAt(ShiftRows(SubBytes(t, s)), 12, 0x5f, 0x15, 0x55, 0x4c)
  {
    SubShiftByte(t, s, 3, 0);
    SubShiftByte(t, s, 3, 1);
    SubShiftByte(t, s, 3, 2);
    SubShiftByte(t, s, 3, 3);
  }

  /** Column 3 after MixColumns in round 7. */
  lemma Round7Mix3(x: Block)
    requires BytesAt(x, 12, 0x5f, 0x15, 0x55, 0x4c)
    ensures BytesAt(MixColumns(x), 12, 0x98, 0xc6, 0x34, 0x39)
  {
    MixColumnsByte(x, 3, 0);
    MixColumnsByte(x, 3, 1);
    MixColumnsByte(x, 3, 2);
    MixColumnsByte(x, 3, 3);
    assert Column(x, 3) == [0x5f, 0x15, 0x55, 0x4c];
  }

  /** Column 0 after AddRoundKey in round 7. */
  lemma Round7AddKey0(m: Block, w: Schedule)
    requires BytesAt(m, 0, 0xc5, 0x7e, 0x1c, 0x15)
    requires BytesAt(w, 112, 0x14, 0xf9, 0x70, 0x1a)
    ensures BytesAt(AddRoundKey(m, w, 7), 0, 0xd1, 0x87, 0x6c, 0x0f)
  {}

  /** Column 1 after AddRoundKey in round 7. */
  lemma Round7AddKey1(m: Block, w: Schedule)
    requires BytesAt(m, 4, 0x9a, 0x9b, 0xd2, 0x86)
    requires BytesAt(w, 116, 0xe3, 0x5f, 0xe2, 0x8c)
    ensures BytesAt(AddRoundKey(m, w, 7), 4, 0x79, 0xc4, 0x30, 0x0a)
  {}

  /** Column 2 after AddRoundKey in round 7. */
  lemma Round7AddKey2(m: Block, w: Schedule)
    requires BytesAt(m, 8, 0xf0, 0x5f, 0x4b, 0xe0)
    requires BytesAt(w, 120, 0x44, 0x0a, 0xdf, 0x4d)
    ensures BytesAt(AddRoundKey(m, w, 7), 8, 0xb4, 0x55, 0x94, 0xad)
  {}

  /** Column 3 after AddRoundKey in round 7. */
  lemma Round7AddKey3(m: Block, w: Schedule)
    requires BytesAt(m, 12, 0x98, 0xc6, 0x34, 0x39)
    requires BytesAt(w, 124, 0x4e, 0xa9, 0xc0, 0x26)
    ensures BytesAt(AddRoundKey(m, w, 7), 12, 0xd6, 0x6f, 0xf4, 0x1f)
  {}

  /** Round 7: the state at its end from the state at its start. */
  lemma Round7(t: Table)
    requires forall b: bv8 :: t[b] == FipsSBox(b)
    requires KeyWord(t, KeyC1, 28) == [0x14, 0xf9, 0x70, 0x1a]
    requires KeyWord(t, KeyC1, 29) == [0xe3, 0x5f, 0xe2, 0x8c]
    requires KeyWord(t, KeyC1, 30) == [0x44, 0x0a, 0xdf, 0x4d]
    requires KeyWord(t, KeyC1, 31) == [0x4e, 0xa9, 0xc0, 0x26]
    requires BytesAt(State(t, ExpandKey(t, KeyC1), PlainC1, 6), 0, 0xc6, 0x2f, 0xe1, 0x09)
    requires BytesAt(State(t, ExpandKey(t, KeyC1), PlainC1, 6), 4, 0xf7, 0x5e, 0xed, 0xc3)
    requires BytesAt(State(t, ExpandKey(t, KeyC1), PlainC1, 6), 8, 0xcc, 0x79, 0x39, 0x5d)
    requires BytesAt(State(t, ExpandKey(t, KeyC1), PlainC1, 6), 12, 0x84, 0xf9, 0xcf, 0x5d)
    ensures BytesAt(State(t, ExpandKey(t, KeyC1), PlainC1, 7), 0, 0xd1, 0x87, 0x6c, 0x0f)
    ensures BytesAt(State(t, ExpandKey(t, KeyC1), PlainC1, 7), 4, 0x79, 0xc4, 0x30, 0x0a)
    ensures BytesAt(State(t, ExpandKey(t, KeyC1), PlainC1, 7), 8, 0xb4, 0x55, 0x94, 0xad)
    ensures BytesAt(State(t, ExpandKey(t, KeyC1), PlainC1, 7), 12, 0xd6, 0x6f, 0xf4, 0x1f)
  {
    RoundKey7(t);
    var s := State(t, ExpandKey(t, KeyC1), PlainC1, 6);
    Round7Lookupsa(t);
    Round7Lookupsb(t);
    Round7SubShift0(t, s);
    Round7SubShift1(t, s);
    Round7SubShift2(t, s);
    Round7SubShift3(t, s);
    var x := ShiftRows(SubBytes(t, s));
    Round7Mix0(x);
    Round7Mix1(x);
    Round7Mix2(x);
    Round7Mix3(x);
    var m := MixColumns(x);
    Round7AddKey0(m, ExpandKey(t, KeyC1));
    Round7AddKey1(m, ExpandKey(t, KeyC1));
    Round7AddKey2(m, ExpandKey(t, KeyC1));
    Round7AddKey3(m, ExpandKey(t, KeyC1));
  }

  /** Round key 8 as bytes 128..143 of the schedule. */
  lemma RoundKey8(t: Table)
    requires KeyWord(t, KeyC1, 32) == [0x47, 0x43, 0x87, 0x35]
    requires KeyWord(t, KeyC1, 33) == [0xa4, 0x1c, 0x65, 0xb9]
    requires KeyWord(t, KeyC1, 34) == [0xe0, 0x16, 0xba, 0xf4]
    requires KeyWord(t, KeyC1, 35) == [0xae, 0xbf, 0x7a, 0xd2]
    ensures BytesAt(ExpandKey(t, KeyC1), 128, 0x47, 0x43, 0x87, 0x35)
    ensures BytesAt(ExpandKey(t, KeyC1), 132, 0xa4, 0x1c, 0x65, 0xb9)
    ensures BytesAt(ExpandKey(t, KeyC1), 136, 0xe0, 0x16, 0xba, 0xf4)
    ensures BytesAt(ExpandKey(t, KeyC1), 140, 0xae, 0xbf, 0x7a, 0xd2)
  {
    ExpandKeyByte(t, KeyC1, 32, 0);
    ExpandKeyByte(t, KeyC1, 32, 1);
    ExpandKeyByte(t, KeyC1, 32, 2);
    ExpandKeyByte(t, KeyC1, 32, 3);
    ExpandKeyByte(t, KeyC1, 33, 0);
    ExpandKeyByte(t, KeyC1, 33, 1);
    ExpandKeyByte(t, KeyC1, 33, 2);
    ExpandKeyByte(t, KeyC1, 33, 3);
    ExpandKeyByte(t, KeyC1, 34, 0);
    ExpandKeyByte(t, KeyC1, 34, 1);
    ExpandKeyByte(t, KeyC1, 34, 2);
    ExpandKeyByte(t, KeyC1, 34, 3);
    ExpandKeyByte(t, KeyC1, 35, 0);
    ExpandKeyByte(t, KeyC1, 35, 1);
    ExpandKeyByte(t, KeyC1, 35, 2);
    ExpandKeyByte(t, KeyC1, 35, 3);
  }

  /** Entries of Figure 7 that round 8 reads. */
  lemma Round8LookupsaValues()
    ensures FipsSBox(0x0a) == 0x67
    ensures FipsSBox(0x0f) == 0x76
    ensures FipsSBox(0x1f) == 0xc0
    ensures FipsSBox(0x30) == 0x04
    ensures FipsSBox(0x55) == 0xfc
    ensures FipsSBox(0x6c) == 0x50
    ensures FipsSBox(0x6f) == 0xa8
    ensures FipsSBox(0x79) == 0xb6
  {}

  /** Entries of the table that round 8 reads. */
  lemma Round8Lookupsa(t: Table)
    requires forall b: bv8 :: t[b] == FipsSBox(b)
    ensures t[0x0a] == 0x67
    ensures t[0x0f] == 0x76
    ensures t[0x1f] == 0xc0
    ensures t[0x30] == 0x04
    ensures t[0x55] == 0xfc
    ensures t[0x6c] == 0x50
    ensures t[0x6f] == 0xa8
    ensures t[0x79] == 0xb6
  {
    Round8LookupsaValues();
    FipsAt(t, 0x0a, 0x67);
    FipsAt(t, 0x0f, 0x76);
    FipsAt(t, 0x1f, 0xc0);
    FipsAt(t, 0x30, 0x04);
    FipsAt(t, 0x55, 0xfc);
    FipsAt(t, 0x6c, 0x50);
    FipsAt(t, 0x6f, 0xa8);
    FipsAt(t, 0x79, 0xb6);
  }

  /** Entries of Figure 7 that round 8 reads. */
  lemma Round8LookupsbValues()
    ensures FipsSBox(0x87) == 0x17
    ensures FipsSBox(0x94) == 0x22
    ensures FipsSBox(0xad) == 0x95
    ensures FipsSBox(0xb4) == 0x8d
    ensures FipsSBox(0xc4) == 0x1c
    ensures FipsSBox(0xd1) == 0x3e
    ensures FipsSBox(0xd6) == 0xf6
    ensures FipsSBox(0xf4) == 0xbf
  {}

  /** Entries of the table that round 8 reads. */
  lemma Round8Lookupsb(t: Table)
    requires forall b: bv8 :: t[b] == FipsSBox(b)
    ensures t[0x87] == 0x17
    ensures t[0x94] == 0x22
    ensures t[0xad] == 0x95
    ensures t[0xb4] == 0x8d
    ensures t[0xc4] == 0x1c
    ensures t[0xd1] == 0x3e
    ensures t[0xd6] == 0xf6
    ensures t[0xf4] == 0xbf
  {
    Round8LookupsbValues();
    FipsAt(t, 0x87, 0x17);
    FipsAt(t, 0x94, 0x22);
    FipsAt(t, 0xad, 0x95);
    FipsAt(t, 0xb4, 0x8d);
    FipsAt(t, 0xc4, 0x1c);
    FipsAt(t, 0xd1, 0x3e);
    FipsAt(t, 0xd6, 0xf6);
    FipsAt(t, 0xf4, 0xbf);
  }

  /** Column 0 after SubBytes and ShiftRows in round 8. */
  lemma Round8SubShift0(t: Table, s: Block)
    requires t[0x1f] == 0xc0
    requires t[0x94] == 0x22
    requires t[0xc4] == 0x1c
    requires t[0xd1] == 0x3e
    requires s[0] == 0xd1 && s[5] == 0xc4 && s[10] == 0x94 && s[15] == 0x1f
    ensures BytesAt(ShiftRows(SubBytes(t, s)), 0, 0x3e, 0x1c, 0x22, 0xc0)
  {
    SubShiftByte(t, s, 0, 0);
    SubShiftByte(t, s, 0, 1);
    SubShiftByte(t, s, 0, 2);
    SubShiftByte(t, s, 0, 3);
  }

  /** Column 0 after MixColumns in round 8. */
  lemma Round8Mix0(x: Block)
    requires BytesAt(x, 0, 0x3e, 0x1c, 0x22, 0xc0)
    ensures BytesAt(MixColumns(x), 0, 0xba, 0xa0, 0x3d, 0xe7)
  {
    MixColumnsByte(x, 0, 0);
    MixColumnsByte(x, 0, 1);
    MixColumnsByte(x, 0, 2);
    MixColumnsByte(x, 0, 3);
    assert Column(x, 0) == [0x3e, 0x1c, 0x22, 0xc0];
  }

  /** Column 1 after SubBytes and ShiftRows in round 8. */
  lemma Round8SubShift1(t: Table, s: Block)
    requires t[0x0f] == 0x76
    requires t[0x55] == 0xfc
    requires t[0x79] == 0xb6
    requires t[0xf4] == 0xbf
    requires s[4] == 0x79 && s[9] == 0x55 && s[14] == 0xf4 && s[3] == 0x0f
    ensures BytesAt(ShiftRows(SubBytes(t, s)), 4, 0xb6, 0xfc, 0xbf, 0x76)
  {
    SubShiftByte(t, s, 1, 0);
    SubShiftByte(t, s, 1, 1);
    SubShiftByte(t, s, 1, 2);
    SubShiftByte(t, s, 1, 3);
  }

  /** Column 1 after MixColumns in round 8. */
  lemma Round8Mix1(x: Block)
    requires BytesAt(x, 4, 0xb6, 0xfc, 0xbf, 0x76)
    ensures BytesAt(MixColumns(x), 4, 0xa1, 0xf9, 0xb5, 0x6e)
  {
    MixColumnsByte(x, 1, 0);
    MixColumnsByte(x, 1, 1);
    MixColumnsByte(x, 1, 2);
    MixColumnsByte(x, 1, 3);
    assert Column(x, 1) == [0xb6, 0xfc, 0xbf, 0x76];
  }

  /** Column 2 after SubBytes and ShiftRows in round 8. */
  lemma Round8SubShift2(t: Table, s: Block)
    requires t[0x0a] == 0x67
    requires t[0x6c] == 0x50
    requires t[0x6f] == 0xa8
    requires t[0xb4] == 0x8d
    requires s[8] == 0xb4 && s[13] == 0x6f && s[2] == 0x6c && s[7] == 0x0a
    ensures BytesAt(ShiftRows(SubBytes(t, s)), 8, 0x8d, 0xa8, 0x50, 0x67)
  {
    SubShiftByte(t, s, 2, 0);
    SubShiftByte(t, s, 2, 1);
    SubShiftByte(t, s, 2, 2);
    SubShiftByte(t, s, 2, 3);
  }

  /** Column 2 after MixColumns in round 8. */
  lemma Round8Mix2(x: Block)
    requires BytesAt(x, 8, 0x8d, 0xa8, 0x50, 0x67)
    ensures BytesAt(MixColumns(x), 8, 0xd5, 0x51, 0x2c, 0xba)
  {
    MixColumnsByte(x, 2, 0);
    MixColumnsByte(x, 2, 1);
    MixColumnsByte(x, 2, 2);
    MixColumnsByte(x, 2, 3);
    assert Column(x, 2) == [0x8d, 0xa8, 0x50, 0x67];
  }

  /** Column 3 after SubBytes and ShiftRows in round 8. */
  lemma Round8SubShift3(t: Table, s: Block)
    requires t[0x30] == 0x04
    requires t[0x87] == 0x17
    requires t[0xad] == 0x95
    requires t[0xd6] == 0xf6
    requires s[12] == 0xd6 && s[1] == 0x87 && s[6] == 0x30 && s[11] == 0xad
    ensures BytesAt(ShiftRows(SubBytes(t, s)), 12, 0xf6, 0x17, 0x04, 0x95)
  {
    SubShiftByte(t, s, 3, 0);
    SubShiftByte(t, s, 3, 1);
    SubShiftByte(t, s, 3, 2);
    SubShiftByte(t, s, 3, 3);
  }

  /** Column 3 after MixColumns in round 8. */
  lemma Round8Mix3(x: Block)
    requires BytesAt(x, 12, 0xf6, 0x17, 0x04, 0x95)
    ensures BytesAt(MixColumns(x), 12, 0x5f, 0x41, 0x4d, 0x23)
  {
    MixColumnsByte(x, 3, 0);
    MixColumnsByte(x, 3, 1);
    MixColumnsByte(x, 3, 2);
    MixColumnsByte(x, 3, 3);
    assert Column(x, 3) == [0xf6, 0x17, 0x04, 0x95];
  }

  /** Column 0 after AddRoundKey in round 8. */
  lemma Round8AddKey0(m: Block, w: Schedule)
    requires BytesAt(m, 0, 0xba, 0xa0, 0x3d, 0xe7)
    requires BytesAt(w, 128, 0x47, 0x43, 0x87, 0x35)
    ensures BytesAt(AddRoundKey(m, w, 8), 0, 0xfd, 0xe3, 0xba, 0xd2)
  {}

  /** Column 1 after AddRoundKey in round 8. */
  lemma Round8AddKey1(m: Block, w: Schedule)
    requires BytesAt(m, 4, 0xa1, 0xf9, 0xb5, 0x6e)
    requires BytesAt(w, 132, 0xa4, 0x1c, 0x65, 0xb9)
    ensures BytesAt(AddRoundKey(m, w, 8), 4, 0x05, 0xe5, 0xd0, 0xd7)
  {}

  /** Column 2 after AddRoundKey in round 8. */
  lemma Round8AddKey2(m: Block, w: Schedule)
    requires BytesAt(m, 8, 0xd5, 0x51, 0x2c, 0xba)
    requires BytesAt(w, 136, 0xe0, 0x16, 0xba, 0xf4)
    ensures BytesAt(AddRoundKey(m, w, 8), 8, 0x35, 0x47, 0x96, 0x4e)
  {}

  /** Column 3 after AddRoundKey in round 8. */
  lemma Round8AddKey3(m: Block, w: Schedule)
    requires BytesAt(m, 12, 0x5f, 0x41, 0x4d, 0x23)
    requires BytesAt(w, 140, 0xae, 0xbf, 0x7a, 0xd2)
    ensures BytesAt(AddRoundKey(m, w, 8), 12, 0xf1, 0xfe, 0x37, 0xf1)
  {}

  /** Round 8: the state at its end from the state at its start. */
  lemma Round8(t: Table)
    requires forall b: bv8 :: t[b] == FipsSBox(b)
    requires KeyWord(t, KeyC1, 32) == [0x47, 0x43, 0x87, 0x35]
    requires KeyWord(t, KeyC1, 33) == [0xa4, 0x1c, 0x65, 0xb9]
    requires KeyWord(t, KeyC1, 34) == [0xe0, 0x16, 0xba, 0xf4]
    requires KeyWord(t, KeyC1, 35) == [0xae, 0xbf, 0x7a, 0xd2]
    requires BytesAt(State(t, ExpandKey(t, KeyC1), PlainC1, 7), 0, 0xd1, 0x87, 0x6c, 0x0f)
    requires BytesAt(State(t, ExpandKey(t, KeyC1), PlainC1, 7), 4, 0x79, 0xc4, 0x30, 0x0a)
    requires BytesAt(State(t, ExpandKey(t, KeyC1), PlainC1, 7), 8, 0xb4, 0x55, 0x94, 0xad)
    requires BytesAt(State(t, ExpandKey(t, KeyC1), PlainC1, 7), 12, 0xd6, 0x6f, 0xf4, 0x1f)
    ensures BytesAt(State(t, ExpandKey(t, KeyC1), PlainC1, 8), 0, 0xfd, 0xe3, 0xba, 0xd2)
    ensures BytesAt(State(t, ExpandKey(t, KeyC1), PlainC1, 8), 4, 0x05, 0xe5, 0xd0, 0xd7)
    ensures BytesAt(State(t, ExpandKey(t, KeyC1), PlainC1, 8), 8, 0x35, 0x47, 0x96, 0x4e)
    ensures BytesAt(State(t, ExpandKey(t, KeyC1), PlainC1, 8), 12, 0xf1, 0xfe, 0x37, 0xf1)
  {
    RoundKey8(t);
    var s := State(t, ExpandKey(t, KeyC1), PlainC1, 7);
    Round8Lookupsa(t);
    Round8Lookupsb(t);
    Round8SubShift0(t, s);
    Round8SubShift1(t, s);
    Round8SubShift2(t, s);
    Round8SubShift3(t, s);
    var x := ShiftRows(SubBytes(t, s));
    Round8Mix0(x);
    Round8Mix1(x);
    Round8Mix2(x);
    Round8Mix3(x);
    var m := MixColumns(x);
    Round8AddKey0(m, ExpandKey(t, KeyC1));
    Round8AddKey1(m, ExpandKey(t, KeyC1));
    Round8AddKey2(m, ExpandKey(t, KeyC1));
    Round8AddKey3(m, ExpandKey(t, KeyC1));
  }

  /** Round key 9 as bytes 144..159 of the schedule. */
  lemma RoundKey9(t: Table)
    requires KeyWord(t, KeyC1, 36) == [0x54, 0x99, 0x32, 0xd1]
    requires KeyWord(t, KeyC1, 37) == [0xf0, 0x85, 0x57, 0x68]
    requires KeyWord(t, KeyC1, 38) == [0x10, 0x93, 0xed, 0x9c]
    requires KeyWord(t, KeyC1, 39) == [0xbe, 0x2c, 0x97, 0x4e]
    ensures BytesAt(ExpandKey(t, KeyC1), 144, 0x54, 0x99, 0x32, 0xd1)
    ensures BytesAt(ExpandKey(t, KeyC1), 148, 0xf0, 0x85, 0x57, 0x68)
    ensures BytesAt(ExpandKey(t, KeyC1), 152, 0x10, 0x93, 0xed, 0x9c)
    ensures BytesAt(ExpandKey(t, KeyC1), 156, 0xbe, 0x2c, 0x97, 0x4e)
  {
    ExpandKeyByte(t, KeyC1, 36, 0);
    ExpandKeyByte(t, KeyC1, 36, 1);
    ExpandKeyByte(t, KeyC1, 36, 2);
    ExpandKeyByte(t, KeyC1, 36, 3);
    ExpandKeyByte(t, KeyC1, 37, 0);
    ExpandKeyByte(t, KeyC1, 37, 1);
    ExpandKeyByte(t, KeyC1, 37, 2);
    ExpandKeyByte(t, KeyC1, 37, 3);
    ExpandKeyByte(t, KeyC1, 38, 0);
    ExpandKeyByte(t, KeyC1, 38, 1);
    ExpandKeyByte(t, KeyC1, 38, 2);
    ExpandKeyByte(t, KeyC1, 38, 3);
    ExpandKeyByte(t, KeyC1, 39, 0);
    ExpandKeyByte(t, KeyC1, 39, 1);
    ExpandKeyByte(t, KeyC1, 39, 2);
    ExpandKeyByte(t, KeyC1, 39, 3);
  }

  /** Entries of Figure 7 that round 9 reads. */
  lemma Round9LookupsaValues()
    ensures FipsSBox(0x05) == 0x6b
    ensures FipsSBox(0x35) == 0x96
    ensures FipsSBox(0x37) == 0x9a
    ensures FipsSBox(0x47) == 0xa0
    ensures FipsSBox(0x4e) == 0x2f
    ensures FipsSBox(0x96) == 0x90
    ensures FipsSBox(0xba) == 0xf4
    ensures FipsSBox(0xd0) == 0x70
  {}

  /** Entries of the table that round 9 reads. */
  lemma Round9Lookupsa(t: Table)
    requires forall b: bv8 :: t[b] == FipsSBox(b)
    ensures t[0x05] == 0x6b
    ensures t[0x35] == 0x96
    ensures t[0x37] == 0x9a
    ensures t[0x47] == 0xa0
    ensures t[0x4e] == 0x2f
    ensures t[0x96] == 0x90
    ensures t[0xba] == 0xf4
    ensures t[0xd0] == 0x70
  {
    Round9LookupsaValues();
    FipsAt(t, 0x05, 0x6b);
    FipsAt(t, 0x35, 0x96);
    FipsAt(t, 0x37, 0x9a);
    FipsAt(t, 0x47, 0xa0);
    FipsAt(t, 0x4e, 0x2f);
    FipsAt(t, 0x96, 0x90);
    FipsAt(t, 0xba, 0xf4);
    FipsAt(t, 0xd0, 0x70);
  }

  /** Entries of Figure 7 that round 9 reads. */
  lemma Round9LookupsbValues()
    ensures FipsSBox(0xd2) == 0xb5
    ensures FipsSBox(0xd7) == 0x0e
    ensures FipsSBox(0xe3) == 0x11
    ensures FipsSBox(0xe5) == 0xd9
    ensures FipsSBox(0xf1) == 0xa1
    ensures FipsSBox(0xfd) == 0x54
    ensures FipsSBox(0xfe) == 0xbb
  {}

  /** Entries of the table that round 9 reads. */
  lemma Round9Lookupsb(t: Table)
    requires forall b: bv8 :: t[b] == FipsSBox(b)
    ensures t[0xd2] == 0xb5
    ensures t[0xd7] == 0x0e
    ensures t[0xe3] == 0x11
    ensures t[0xe5] == 0xd9
    ensures t[0xf1] == 0xa1
    ensures t[0xfd] == 0x54
    ensures t[0xfe] == 0xbb
  {
    Round9LookupsbValues();
    FipsAt(t, 0xd2, 0xb5);
    FipsAt(t, 0xd7, 0x0e);
    FipsAt(t, 0xe3, 0x11);
    FipsAt(t, 0xe5, 0xd9);
    FipsAt(t, 0xf1, 0xa1);
    FipsAt(t, 0xfd, 0x54);
    FipsAt(t, 0xfe, 0xbb);
  }

  /** Column 0 after SubBytes and ShiftRows in round 9. */
  lemma Round9SubShift0(t: Table, s: Block)
    requires t[0x96] == 0x90
    requires t[0xe5] == 0xd9
    requires t[0xf1] == 0xa1
    requires t[0xfd] == 0x54
    requires s[0] == 0xfd && s[5] == 0xe5 && s[10] == 0x96 && s[15] == 0xf1
    ensures BytesAt(ShiftRows(SubBytes(t, s)), 0, 0x54, 0xd9, 0x90, 0xa1)
  {
    SubShiftByte(t, s, 0, 0);
    SubShiftByte(t, s, 0, 1);
    SubShiftByte(t, s, 0, 2);
    SubShiftByte(t, s, 0, 3);
  }

  /** Column 0 after MixColumns in round 9. */
  lemma Round9Mix0(x: Block)
    requires BytesAt(x, 0, 0x54, 0xd9, 0x90, 0xa1)
    ensures BytesAt(MixColumns(x), 0, 0xe9, 0xf7, 0x4e, 0xec)
  {
    MixColumnsByte(x, 0, 0);
    MixColumnsByte(x, 0, 1);
    MixColumnsByte(x, 0, 2);
    MixColumnsByte(x, 0, 3);
    assert Column(x, 0) == [0x54, 0xd9, 0x90, 0xa1];
  }

  /** Column 1 after SubBytes and ShiftRows in round 9. */
  lemma Round9SubShift1(t: Table, s: Block)
    requires t[0x05] == 0x6b
    requires t[0x37] == 0x9a
    requires t[0x47] == 0xa0
    requires t[0xd2] == 0xb5
    requires s[4] == 0x05 && s[9] == 0x47 && s[14] == 0x37 && s[3] == 0xd2
    ensures BytesAt(ShiftRows(SubBytes(t, s)), 4, 0x6b, 0xa0, 0x9a, 0xb5)
  {
    SubShiftByte(t, s, 1, 0);
    SubShiftByte(t, s, 1, 1);
    SubShiftByte(t, s, 1, 2);
    SubShiftByte(t, s, 1, 3);
  }

  /** Column 1 after MixColumns in round 9. */
  lemma Round9Mix1(x: Block)
    requires BytesAt(x, 4, 0x6b, 0xa0, 0x9a, 0xb5)
    ensures BytesAt(MixColumns(x), 4, 0x02, 0x30, 0x20, 0xf6)
  {
    MixColumnsByte(x, 1, 0);
    MixColumnsByte(x, 1, 1);
    MixColumnsByte(x, 1, 2);
    MixColumnsByte(x, 1, 3);
    assert Column(x, 1) == [0x6b, 0xa0, 0x9a, 0xb5];
  }

  /** Column 2 after SubBytes and ShiftRows in round 9. */
  lemma Round9SubShift2(t: Table, s: Block)
    requires t[0x35] == 0x96
    requires t[0xba] == 0xf4
    requires t[0xd7] == 0x0e
    requires t[0xfe] == 0xbb
    requires s[8] == 0x35 && s[13] == 0xfe && s[2] == 0xba && s[7] == 0xd7
    ensures BytesAt(ShiftRows(SubBytes(t, s)), 8, 0x96, 0xbb, 0xf4, 0x0e)
  {
    SubShiftByte(t, s, 2, 0);
    SubShiftByte(t, s, 2, 1);
    SubShiftByte(t, s, 2, 2);
    SubShiftByte(t, s, 2, 3);
  }

  /** Column 2 after MixColumns in round 9. */
  lemma Round9Mix2(x: Block)
    requires BytesAt(x, 8, 0x96, 0xbb, 0xf4, 0x0e)
    ensures BytesAt(MixColumns(x), 8, 0x1b, 0xf2, 0xcc, 0xf2)
  {
    MixColumnsByte(x, 2, 0);
    MixColumnsByte(x, 2, 1);
    MixColumnsByte(x, 2, 2);
    MixColumnsByte(x, 2, 3);
    assert Column(x, 2) == [0x96, 0xbb, 0xf4, 0x0e];
  }

  /** Column 3 after SubBytes and ShiftRows in round 9. */
  lemma Round9SubShift3(t: Table, s: Block)
    requires t[0x4e] == 0x2f
    requires t[0xd0] == 0x70
    requires t[0xe3] == 0x11
    requires t[0xf1] == 0xa1
    requires s[12] == 0xf1 && s[1] == 0xe3 && s[6] == 0xd0 && s[11] == 0x4e
    ensures BytesAt(ShiftRows(SubBytes(t, s)), 12, 0xa1, 0x11, 0x70, 0x2f)
  {
    SubShiftByte(t, s, 3, 0);
    SubShiftByte(t, s, 3, 1);
    SubShiftByte(t, s, 3, 2);
    SubShiftByte(t, s, 3, 3);
  }

  /** Column 3 after MixColumns in round 9. */
  lemma Round9Mix3(x: Block)
    requires BytesAt(x, 12, 0xa1, 0x11, 0x70, 0x2f)
    ensures BytesAt(MixColumns(x), 12, 0x35, 0x3c, 0x21, 0xc7)
  {
    MixColumnsByte(x, 3, 0);
    MixColumnsByte(x, 3, 1);
    MixColumnsByte(x, 3, 2);
    MixColumnsByte(x, 3, 3);
    assert Column(x, 3) == [0xa1, 0x11, 0x70, 0x2f];
  }

  /** Column 0 after AddRoundKey in round 9. */
  lemma Round9AddKey0(m: Block, w: Schedule)
    requires BytesAt(m, 0, 0xe9, 0xf7, 0x4e, 0xec)
    requires BytesAt(w, 144, 0x54, 0x99, 0x32, 0xd1)
    ensures BytesAt(AddRoundKey(m, w, 9), 0, 0xbd, 0x6e, 0x7c, 0x3d)
  {}

  /** Column 1 after AddRoundKey in round 9. */
  lemma Round9AddKey1(m: Block, w: Schedule)
    requires BytesAt(m, 4, 0x02, 0x30, 0x20, 0xf6)
    requires BytesAt(w, 148, 0xf0, 0x85, 0x57, 0x68)
    ensures BytesAt(AddRoundKey(m, w, 9), 4, 0xf2, 0xb5, 0x77, 0x9e)
  {}

  /** Column 2 after AddRoundKey in round 9. */
  lemma Round9AddKey2(m: Block, w: Schedule)
    requires BytesAt(m, 8, 0x1b, 0xf2, 0xcc, 0xf2)
    requires BytesAt(w, 152, 0x10, 0x93, 0xed, 0x9c)
    ensures BytesAt(AddRoundKey(m, w, 9), 8, 0x0b, 0x61, 0x21, 0x6e)
  {}

  /** Column 3 after AddRoundKey in round 9. */
  lemma Round9AddKey3(m: Block, w: Schedule)
    requires BytesAt(m, 12, 0x35, 0x3c, 0x21, 0xc7)
    requires BytesAt(w, 156, 0xbe, 0x2c, 0x97, 0x4e)
    ensures BytesAt(AddRoundKey(m, w, 9), 12, 0x8b, 0x10, 0xb6, 0x89)
  {}

  /** Round 9: the state at its end from the state at its start. */
  lemma Round9(t: Table)
    requires forall b: bv8 :: t[b] == FipsSBox(b)
    requires KeyWord(t, KeyC1, 36) == [0x54, 0x99, 0x32, 0xd1]
    requires KeyWord(t, KeyC1, 37) == [0xf0, 0x85, 0x57, 0x68]
    requires KeyWord(t, KeyC1, 38) == [0x10, 0x93, 0xed, 0x9c]
    requires KeyWord(t, KeyC1, 39) == [0xbe, 0x2c, 0x97, 0x4e]
    requires BytesAt(State(t, ExpandKey(t, KeyC1), PlainC1, 8), 0, 0xfd, 0xe3, 0xba, 0xd2)
    requires BytesAt(State(t, ExpandKey(t, KeyC1), PlainC1, 8), 4, 0x05, 0xe5, 0xd0, 0xd7)
    requires BytesAt(State(t, ExpandKey(t, KeyC1), PlainC1, 8), 8, 0x35, 0x47, 0x96, 0x4e)
    requires BytesAt(State(t, ExpandKey(t, KeyC1), PlainC1, 8), 12, 0xf1, 0xfe, 0x37, 0xf1)
    ensures BytesAt(State(t, ExpandKey(t, KeyC1), PlainC1, 9), 0, 0xbd, 0x6e, 0x7c, 0x3d)
    ensures BytesAt(State(t, ExpandKey(t, KeyC1), PlainC1, 9), 4, 0xf2, 0xb5, 0x77, 0x9e)
    ensures BytesAt(State(t, ExpandKey(t, KeyC1), PlainC1, 9), 8, 0x0b, 0x61, 0x21, 0x6e)
    ensures BytesAt(State(t, ExpandKey(t, KeyC1), PlainC1, 9), 12, 0x8b, 0x10, 0xb6, 0x89)
  {
    RoundKey9(t);
    var s := State(t, ExpandKey(t, KeyC1), PlainC1, 8);
    Round9Lookupsa(t);
    Round9Lookupsb(t);
    Round9SubShift0(t, s);
    Round9SubShift1(t, s);
    Round9SubShift2(t, s);
    Round9SubShift3(t, s);
    var x := ShiftRows(SubBytes(t, s));
    Round9Mix0(x);
    Round9Mix1(x);
    Round9Mix2(x);
    Round9Mix3(x);
    var m := MixColumns(x);
    Round9AddKey0(m, ExpandKey(t, KeyC1));
    Round9AddKey1(m, ExpandKey(t, KeyC1));
    Round9AddKey2(m, ExpandKey(t, KeyC1));
    Round9AddKey3(m, ExpandKey(t, KeyC1));
  }

  /** Round key 10 as bytes 160..175 of the schedule. */
  lemma RoundKey10(t: Table)
    requires KeyWord(t, KeyC1, 40) == [0x13, 0x11, 0x1d, 0x7f]
    requires KeyWord(t, KeyC1, 41) == [0xe3, 0x94, 0x4a, 0x17]
    requires KeyWord(t, KeyC1, 42) == [0xf3, 0x07, 0xa7, 0x8b]
    requires KeyWord(t, KeyC1, 43) == [0x4d, 0x2b, 0x30, 0xc5]
    ensures BytesAt(ExpandKey(t, KeyC1), 160, 0x13, 0x11, 0x1d, 0x7f)
    ensures BytesAt(ExpandKey(t, KeyC1), 164, 0xe3, 0x94, 0x4a, 0x17)
    ensures BytesAt(ExpandKey(t, KeyC1), 168, 0xf3, 0x07, 0xa7, 0x8b)
    ensures BytesAt(ExpandKey(t, KeyC1), 172, 0x4d, 0x2b, 0x30, 0xc5)
  {
    ExpandKeyByte(t, KeyC1, 40, 0);
    ExpandKeyByte(t, KeyC1, 40, 1);
    ExpandKeyByte(t, KeyC1, 40, 2);
    ExpandKeyByte(t, KeyC1, 40, 3);
    ExpandKeyByte(t, KeyC1, 41, 0);
    ExpandKeyByte(t, KeyC1, 41, 1);
    ExpandKeyByte(t, KeyC1, 41, 2);
    ExpandKeyByte(t, KeyC1, 41, 3);
    ExpandKeyByte(t, KeyC1, 42, 0);
    ExpandKeyByte(t, KeyC1, 42, 1);
    ExpandKeyByte(t, KeyC1, 42, 2);
    ExpandKeyByte(t, KeyC1, 42, 3);
    ExpandKeyByte(t, KeyC1, 43, 0);
    ExpandKeyByte(t, KeyC1, 43, 1);
    ExpandKeyByte(t, KeyC1, 43, 2);
    ExpandKeyByte(t, KeyC1, 43, 3);
  }

  /** Entries of Figure 7 that round 10 reads. */
  lemma Round10LookupsaValues()
    ensures FipsSBox(0x0b) == 0x2b
    ensures FipsSBox(0x10) == 0xca
    ensures FipsSBox(0x21) == 0xfd
    ensures FipsSBox(0x3d) == 0x27
    ensures FipsSBox(0x61) == 0xef
    ensures FipsSBox(0x6e) == 0x9f
    ensures FipsSBox(0x77) == 0xf5
    ensures FipsSBox(0x7c) == 0x10
  {}

  /** Entries of the table that round 10 reads. */
  lemma Round10Lookupsa(t: Table)
    requires forall b: bv8 :: t[b] == FipsSBox(b)
    ensures t[0x0b] == 0x2b
    ensures t[0x10] == 0xca
    ensures t[0x21] == 0xfd
    ensures t[0x3d] == 0x27
    ensures t[0x61] == 0xef
    ensures t[0x6e] == 0x9f
    ensures t[0x77] == 0xf5
    ensures t[0x7c] == 0x10
  {
    Round10LookupsaValues();
    FipsAt(t, 0x0b, 0x2b);
    FipsAt(t, 0x10, 0xca);
    FipsAt(t, 0x21, 0xfd);
    FipsAt(t, 0x3d, 0x27);
    FipsAt(t, 0x61, 0xef);
    FipsAt(t, 0x6e, 0x9f);
    FipsAt(t, 0x77, 0xf5);
    FipsAt(t, 0x7c, 0x10);
  }

  /** Entries of Figure 7 that round 10 reads. */
  lemma Round10LookupsbValues()
    ensures FipsSBox(0x89) == 0xa7
    ensures FipsSBox(0x8b) == 0x3d
    ensures FipsSBox(0x9e) == 0x0b
    ensures FipsSBox(0xb5) == 0xd5
    ensures FipsSBox(0xb6) == 0x4e
    ensures FipsSBox(0xbd) == 0x7a
    ensures FipsSBox(0xf2) == 0x89
  {}

  /** Entries of the table that round 10 reads. */
  lemma Round10Lookupsb(t: Table)
    requires forall b: bv8 :: t[b] == FipsSBox(b)
    ensures t[0x89] == 0xa7
    ensures t[0x8b] == 0x3d
    ensures t[0x9e] == 0x0b
    ensures t[0xb5] == 0xd5
    ensures t[0xb6] == 0x4e
    ensures t[0xbd] == 0x7a
    ensures t[0xf2] == 0x89
  {
    Round10LookupsbValues();
    FipsAt(t, 0x89, 0xa7);
    FipsAt(t, 0x8b, 0x3d);
    FipsAt(t, 0x9e, 0x0b);
    FipsAt(t, 0xb5, 0xd5);
    FipsAt(t, 0xb6, 0x4e);
    FipsAt(t, 0xbd, 0x7a);
    FipsAt(t, 0xf2, 0x89);
  }

  /** Column 0 after SubBytes and ShiftRows in round 10. */
  lemma Round10SubShift0(t: Table, s: Block)
    requires t[0x21] == 0xfd
    requires t[0x89] == 0xa7
    requires t[0xb5] == 0xd5
    requires t[0xbd] == 0x7a
    requires s[0] == 0xbd && s[5] == 0xb5 && s[10] == 0x21 && s[15] == 0x89
    ensures BytesAt(ShiftRows(SubBytes(t, s)), 0, 0x7a, 0xd5, 0xfd, 0xa7)
  {
    SubShiftByte(t, s, 0, 0);
    SubShiftByte(t, s, 0, 1);
    SubShiftByte(t, s, 0, 2);
    SubShiftByte(t, s, 0, 3);
  }

  /** Column 1 after SubBytes and ShiftRows in round 10. */
  lemma Round10SubShift1(t: Table, s: Block)
    requires t[0x3d] == 0x27
    requires t[0x61] == 0xef
    requires t[0xb6] == 0x4e
    requires t[0xf2] == 0x89
    requires s[4] == 0xf2 && s[9] == 0x61 && s[14] == 0xb6 && s[3] == 0x3d
    ensures BytesAt(ShiftRows(SubBytes(t, s)), 4, 0x89, 0xef, 0x4e, 0x27)
  {
    SubShiftByte(t, s, 1, 0);
    SubShiftByte(t, s, 1, 1);
    SubShiftByte(t, s, 1, 2);
    SubShiftByte(t, s, 1, 3);
  }

  /** Column 2 after SubBytes and ShiftRows in round 10. */
  lemma Round10SubShift2(t: Table, s: Block)
    requires t[0x0b] == 0x2b
    requires t[0x10] == 0xca
    requires t[0x7c] == 0x10
    requires t[0x9e] == 0x0b
    requires s[8] == 0x0b && s[13] == 0x10 && s[2] == 0x7c && s[7] == 0x9e
    ensures BytesAt(ShiftRows(SubBytes(t, s)), 8, 0x2b, 0xca, 0x10, 0x0b)
  {
    SubShiftByte(t, s, 2, 0);
    SubShiftByte(t, s, 2, 1);
    SubShiftByte(t, s, 2, 2);
    SubShiftByte(t, s, 2, 3);
  }

  /** Column 3 after SubBytes and ShiftRows in round 10. */
  lemma Round10SubShift3(t: Table, s: Block)
    requires t[0x6e] == 0x9f
    requires t[0x6e] == 0x9f
    requires t[0x77] == 0xf5
    requires t[0x8b] == 0x3d
    requires s[12] == 0x8b && s[1] == 0x6e && s[6] == 0x77 && s[11] == 0x6e
    ensures BytesAt(ShiftRows(SubBytes(t, s)), 12, 0x3d, 0x9f, 0xf5, 0x9f)
  {
    SubShiftByte(t, s, 3, 0);
    SubShiftByte(t, s, 3, 1);
    SubShiftByte(t, s, 3, 2);
    SubShiftByte(t, s, 3, 3);
  }

  /** Column 0 after AddRoundKey in round 10. */
  lemma Round10AddKey0(m: Block, w: Schedule)
    requires BytesAt(m, 0, 0x7a, 0xd5, 0xfd, 0xa7)
    requires BytesAt(w, 160, 0x13, 0x11, 0x1d, 0x7f)
    ensures BytesAt(AddRoundKey(m, w, 10), 0, 0x69, 0xc4, 0xe0, 0xd8)
  {}

  /** Column 1 after AddRoundKey in round 10. */
  lemma Round10AddKey1(m: Block, w: Schedule)
    requires BytesAt(m, 4, 0x89, 0xef, 0x4e, 0x27)
    requires BytesAt(w, 164, 0xe3, 0x94, 0x4a, 0x17)
    ensures BytesAt(AddRoundKey(m, w, 10), 4, 0x6a, 0x7b, 0x04, 0x30)
  {}

  /** Column 2 after AddRoundKey in round 10. */
  lemma Round10AddKey2(m: Block, w: Schedule)
    requires BytesAt(m, 8, 0x2b, 0xca, 0x10, 0x0b)
    requires BytesAt(w, 168, 0xf3, 0x07, 0xa7, 0x8b)
    ensures BytesAt(AddRoundKey(m, w, 10), 8, 0xd8, 0xcd, 0xb7, 0x80)
  {}

  /** Column 3 after AddRoundKey in round 10. */
  lemma Round10AddKey3(m: Block, w: Schedule)
    requires BytesAt(m, 12, 0x3d, 0x9f, 0xf5, 0x9f)
    requires BytesAt(w, 172, 0x4d, 0x2b, 0x30, 0xc5)
    ensures BytesAt(AddRoundKey(m, w, 10), 12, 0x70, 0xb4, 0xc5, 0x5a)
  {}

  /** Round 10: the state at its end from the state at its start. */
  lemma Round10(t: Table)
    requires forall b: bv8 :: t[b] == FipsSBox(b)
    requires KeyWord(t, KeyC1, 40) == [0x13, 0x11, 0x1d, 0x7f]
    requires KeyWord(t, KeyC1, 41) == [0xe3, 0x94, 0x4a, 0x17]
    requires KeyWord(t, KeyC1, 42) == [0xf3, 0x07, 0xa7, 0x8b]
    requires KeyWord(t, KeyC1, 43) == [0x4d, 0x2b, 0x30, 0xc5]
    requires BytesAt(State(t, ExpandKey(t, KeyC1), PlainC1, 9), 0, 0xbd, 0x6e, 0x7c, 0x3d)
    requires BytesAt(State(t, ExpandKey(t, KeyC1), PlainC1, 9), 4, 0xf2, 0xb5, 0x77, 0x9e)
    requires BytesAt(State(t, ExpandKey(t, KeyC1), PlainC1, 9), 8, 0x0b, 0x61, 0x21, 0x6e)
    requires BytesAt(State(t, ExpandKey(t, KeyC1), PlainC1, 9), 12, 0x8b, 0x10, 0xb6, 0x89)
    ensures BytesAt(State(t, ExpandKey(t, KeyC1), PlainC1, 10), 0, 0x69, 0xc4, 0xe0, 0xd8)
    ensures BytesAt(State(t, ExpandKey(t, KeyC1), PlainC1, 10), 4, 0x6a, 0x7b, 0x04, 0x30)
    ensures BytesAt(State(t, ExpandKey(t, KeyC1), PlainC1, 10), 8, 0xd8, 0xcd, 0xb7, 0x80)
    ensures BytesAt(State(t, ExpandKey(t, KeyC1), PlainC1, 10), 12, 0x70, 0xb4, 0xc5, 0x5a)
  {
    RoundKey10(t);
    var s := State(t, ExpandKey(t, KeyC1), PlainC1, 9);
    Round10Lookupsa(t);
    Round10Lookupsb(t);
    Round10SubShift0(t, s);
    Round10SubShift1(t, s);
    Round10SubShift2(t, s);
    Round10SubShift3(t, s);
    var m := ShiftRows(SubBytes(t, s));
    Round10AddKey0(m, ExpandKey(t, KeyC1));
    Round10AddKey1(m, ExpandKey(t, KeyC1));
    Round10AddKey2(m, ExpandKey(t, KeyC1));
    Round10AddKey3(m, ExpandKey(t, KeyC1));
  }

  /** Round key 0 and the state after round 0. */
  lemma Upto0(t: Table)
    requires forall b: bv8 :: t[b] == FipsSBox(b)
    ensures KeyWord(t, KeyC1, 0) == [0x00, 0x01, 0x02, 0x03]
    ensures KeyWord(t, KeyC1, 1) == [0x04, 0x05, 0x06, 0x07]
    ensures KeyWord(t, KeyC1, 2) == [0x08, 0x09, 0x0a, 0x0b]
    ensures KeyWord(t, KeyC1, 3) == [0x0c, 0x0d, 0x0e, 0x0f]
    ensures BytesAt(State(t, ExpandKey(t, KeyC1), PlainC1, 0), 0, 0x00, 0x10, 0x20, 0x30)
    ensures BytesAt(State(t, ExpandKey(t, KeyC1), PlainC1, 0), 4, 0x40, 0x50, 0x60, 0x70)
    ensures BytesAt(State(t, ExpandKey(t, KeyC1), PlainC1, 0), 8, 0x80, 0x90, 0xa0, 0xb0)
    ensures BytesAt(State(t, ExpandKey(t, KeyC1), PlainC1, 0), 12, 0xc0, 0xd0, 0xe0, 0xf0)
  {
    KeyBase(t);
    Round0(t);
  }

  /** Round key 1 and the state after round 1. */
  lemma Upto1(t: Table)
    requires forall b: bv8 :: t[b] == FipsSBox(b)
    ensures KeyWord(t, KeyC1, 4) == [0xd6, 0xaa, 0x74, 0xfd]
    ensures KeyWord(t, KeyC1, 5) == [0xd2, 0xaf, 0x72, 0xfa]
    ensures KeyWord(t, KeyC1, 6) == [0xda, 0xa6, 0x78, 0xf1]
    ensures KeyWord(t, KeyC1, 7) == [0xd6, 0xab, 0x76, 0xfe]
    ensures BytesAt(State(t, ExpandKey(t, KeyC1), PlainC1, 1), 0, 0x89, 0xd8, 0x10, 0xe8)
    ensures BytesAt(State(t, ExpandKey(t, KeyC1), PlainC1, 1), 4, 0x85, 0x5a, 0xce, 0x68)
    ensures BytesAt(State(t, ExpandKey(t, KeyC1), PlainC1, 1), 8, 0x2d, 0x18, 0x43, 0xd8)
    ensures BytesAt(State(t, ExpandKey(t, KeyC1), PlainC1, 1), 12, 0xcb, 0x12, 0x8f, 0xe4)
  {
    Upto0(t);
    KeyRound1(t);
    Round1(t);
  }

  /** Round key 2 and the state after round 2. */
  lemma Upto2(t: Table)
    requires forall b: bv8 :: t[b] == FipsSBox(b)
    ensures KeyWord(t, KeyC1, 8) == [0xb6, 0x92, 0xcf, 0x0b]
    ensures KeyWord(t, KeyC1, 9) == [0x64, 0x3d, 0xbd, 0xf1]
    ensures KeyWord(t, KeyC1, 10) == [0xbe, 0x9b, 0xc5, 0x00]
    ensures KeyWord(t, KeyC1, 11) == [0x68, 0x30, 0xb3, 0xfe]
    ensures BytesAt(State(t, ExpandKey(t, KeyC1), PlainC1, 2), 0, 0x49, 0x15, 0x59, 0x8f)
    ensures BytesAt(State(t, ExpandKey(t, KeyC1), PlainC1, 2), 4, 0x55, 0xe5, 0xd7, 0xa0)
    ensures BytesAt(State(t, ExpandKey(t, KeyC1), PlainC1, 2), 8, 0xda, 0xca, 0x94, 0xfa)
    ensures BytesAt(State(t, ExpandKey(t, KeyC1), PlainC1, 2), 12, 0x1f, 0x0a, 0x63, 0xf7)
  {
    Upto1(t);
    KeyRound2(t);
    Round2(t);
  }

  /** Round key 3 and the state after round 3. */
  lemma Upto3(t: Table)
    requires forall b: bv8 :: t[b] == FipsSBox(b)
    ensures KeyWord(t, KeyC1, 12) == [0xb6, 0xff, 0x74, 0x4e]
    ensures KeyWord(t, KeyC1, 13) == [0xd2, 0xc2, 0xc9, 0xbf]
    ensures KeyWord(t, KeyC1, 14) == [0x6c, 0x59, 0x0c, 0xbf]
    ensures KeyWord(t, KeyC1, 15) == [0x04, 0x69, 0xbf, 0x41]
    ensures BytesAt(State(t, ExpandKey(t, KeyC1), PlainC1, 3), 0, 0xfa, 0x63, 0x6a, 0x28)
    ensures BytesAt(State(t, ExpandKey(t, KeyC1), PlainC1, 3), 4, 0x25, 0xb3, 0x39, 0xc9)
    ensures BytesAt(State(t, ExpandKey(t, KeyC1), PlainC1, 3), 8, 0x40, 0x66, 0x8a, 0x31)
    ensures BytesAt(State(t, ExpandKey(t, KeyC1), PlainC1, 3), 12, 0x57, 0x24, 0x4d, 0x17)
  {
    Upto2(t);
    KeyRound3(t);
    Round3(t);
  }

  /** Round key 4 and the state after round 4. */
  lemma Upto4(t: Table)
    requires forall b: bv8 :: t[b] == FipsSBox(b)
    ensures KeyWord(t, KeyC1, 16) == [0x47, 0xf7, 0xf7, 0xbc]
    ensures KeyWord(t, KeyC1, 17) == [0x95, 0x35, 0x3e, 0x03]
    ensures KeyWord(t, KeyC1, 18) == [0xf9, 0x6c, 0x32, 0xbc]
    ensures KeyWord(t, KeyC1, 19) == [0xfd, 0x05, 0x8d, 0xfd]
    ensures BytesAt(State(t, ExpandKey(t, KeyC1), PlainC1, 4), 0, 0x24, 0x72, 0x40, 0x23)
    ensures BytesAt(State(t, ExpandKey(t, KeyC1), PlainC1, 4), 4, 0x69, 0x66, 0xb3, 0xfa)
    ensures BytesAt(State(t, ExpandKey(t, KeyC1), PlainC1, 4), 8, 0x6e, 0xd2, 0x75, 0x32)
    ensures BytesAt(State(t, ExpandKey(t, KeyC1), PlainC1, 4), 12, 0x88, 0x42, 0x5b, 0x6c)
  {
    Upto3(t);
    KeyRound4(t);
    Round4(t);
  }

  /** Round key 5 and the state after round 5. */
  lemma Upto5(t: Table)
    requires forall b: bv8 :: t[b] == FipsSBox(b)
    ensures KeyWord(t, KeyC1, 20) == [0x3c, 0xaa, 0xa3, 0xe8]
    ensures KeyWord(t, KeyC1, 21) == [0xa9, 0x9f, 0x9d, 0xeb]
    ensures KeyWord(t, KeyC1, 22) == [0x50, 0xf3, 0xaf, 0x57]
    ensures KeyWord(t, KeyC1, 23) == [0xad, 0xf6, 0x22, 0xaa]
    ensures BytesAt(State(t, ExpandKey(t, KeyC1), PlainC1, 5), 0, 0xc8, 0x16, 0x77, 0xbc)
    ensures BytesAt(State(t, ExpandKey(t, KeyC1), PlainC1, 5), 4, 0x9b, 0x7a, 0xc9, 0x3b)
    ensures BytesAt(State(t, ExpandKey(t, KeyC1), PlainC1, 5), 8, 0x25, 0x02, 0x79, 0x92)
    ensures BytesAt(State(t, ExpandKey(t, KeyC1), PlainC1, 5), 12, 0xb0, 0x26, 0x19, 0x96)
  {
    Upto4(t);
    KeyRound5(t);
    Round5(t);
  }

  /** Round key 6 and the state after round 6. */
  lemma Upto6(t: Table)
    requires forall b: bv8 :: t[b] == FipsSBox(b)
    ensures KeyWord(t, KeyC1, 24) == [0x5e, 0x39, 0x0f, 0x7d]
    ensures KeyWord(t, KeyC1, 25) == [0xf7, 0xa6, 0x92, 0x96]
    ensures KeyWord(t, KeyC1, 26) == [0xa7, 0x55, 0x3d, 0xc1]
    ensures KeyWord(t, KeyC1, 27) == [0x0a, 0xa3, 0x1f, 0x6b]
    ensures BytesAt(State(t, ExpandKey(t, KeyC1), PlainC1, 6), 0, 0xc6, 0x2f, 0xe1, 0x09)
    ensures BytesAt(State(t, ExpandKey(t, KeyC1), PlainC1, 6), 4, 0xf7, 0x5e, 0xed, 0xc3)
    ensures BytesAt(State(t, ExpandKey(t, KeyC1), PlainC1, 6), 8, 0xcc, 0x79, 0x39, 0x5d)
    ensures BytesAt(State(t, ExpandKey(t, KeyC1), PlainC1, 6), 12, 0x84, 0xf9, 0xcf, 0x5d)
  {
    Upto5(t);
    KeyRound6(t);
    Round6(t);
  }

  /** Round key 7 and the state after round 7. */
  lemma Upto7(t: Table)
    requires forall b: bv8 :: t[b] == FipsSBox(b)
    ensures KeyWord(t, KeyC1, 28) == [0x14, 0xf9, 0x70, 0x1a]
    ensures KeyWord(t, KeyC1, 29) == [0xe3, 0x5f, 0xe2, 0x8c]
    ensures KeyWord(t, KeyC1, 30) == [0x44, 0x0a, 0xdf, 0x4d]
    ensures KeyWord(t, KeyC1, 31) == [0x4e, 0xa9, 0xc0, 0x26]
    ensures BytesAt(State(t, ExpandKey(t, KeyC1), PlainC1, 7), 0, 0xd1, 0x87, 0x6c, 0x0f)
    ensures BytesAt(State(t, ExpandKey(t, KeyC1), PlainC1, 7), 4, 0x79, 0xc4, 0x30, 0x0a)
    ensures BytesAt(State(t, ExpandKey(t, KeyC1), PlainC1, 7), 8, 0xb4, 0x55, 0x94, 0xad)
    ensures BytesAt(State(t, ExpandKey(t, KeyC1), PlainC1, 7), 12, 0xd6, 0x6f, 0xf4, 0x1f)
  {
    Upto6(t);
    KeyRound7(t);
    Round7(t);
  }

  /** Round key 8 and the state after round 8. */
  lemma Upto8(t: Table)
    requires forall b: bv8 :: t[b] == FipsSBox(b)
    ensures KeyWord(t, KeyC1, 32) == [0x47, 0x43, 0x87, 0x35]
    ensures KeyWord(t, KeyC1, 33) == [0xa4, 0x1c, 0x65, 0xb9]
    ensures KeyWord(t, KeyC1, 34) == [0xe0, 0x16, 0xba, 0xf4]
    ensures KeyWord(t, KeyC1, 35) == [0xae, 0xbf, 0x7a, 0xd2]
    ensures BytesAt(State(t, ExpandKey(t, KeyC1), PlainC1, 8), 0, 0xfd, 0xe3, 0xba, 0xd2)
    ensures BytesAt(State(t, ExpandKey(t, KeyC1), PlainC1, 8), 4, 0x05, 0xe5, 0xd0, 0xd7)
    ensures BytesAt(State(t, ExpandKey(t, KeyC1), PlainC1, 8), 8, 0x35, 0x47, 0x96, 0x4e)
    ensures BytesAt(State(t, ExpandKey(t, KeyC1), PlainC1, 8), 12, 0xf1, 0xfe, 0x37, 0xf1)
  {
    Upto7(t);
    KeyRound8(t);
    Round8(t);
  }

  /** Round key 9 and the state after round 9. */
  lemma Upto9(t: Table)
    requires forall b: bv8 :: t[b] == FipsSBox(b)
    ensures KeyWord(t, KeyC1, 36) == [0x54, 0x99, 0x32, 0xd1]
    ensures KeyWord(t, KeyC1, 37) == [0xf0, 0x85, 0x57, 0x68]
    ensures KeyWord(t, KeyC1, 38) == [0x10, 0x93, 0xed, 0x9c]
    ensures KeyWord(t, KeyC1, 39) == [0xbe, 0x2c, 0x97, 0x4e]
    ensures BytesAt(State(t, ExpandKey(t, KeyC1), PlainC1, 9), 0, 0xbd, 0x6e, 0x7c, 0x3d)
    ensures BytesAt(State(t, ExpandKey(t, KeyC1), PlainC1, 9), 4, 0xf2, 0xb5, 0x77, 0x9e)
    ensures BytesAt(State(t, ExpandKey(t, KeyC1), PlainC1, 9), 8, 0x0b, 0x61, 0x21, 0x6e)
    ensures BytesAt(State(t, ExpandKey(t, KeyC1), PlainC1, 9), 12, 0x8b, 0x10, 0xb6, 0x89)
  {
    Upto8(t);
    KeyRound9(t);
    Round9(t);
  }

  /** Round key 10 and the state after round 10. */
  lemma Upto10(t: Table)
    requires forall b: bv8 :: t[b] == FipsSBox(b)
    ensures KeyWord(t, KeyC1, 40) == [0x13, 0x11, 0x1d, 0x7f]
    ensures KeyWord(t, KeyC1, 41) == [0xe3, 0x94, 0x4a, 0x17]
    ensures KeyWord(t, KeyC1, 42) == [0xf3, 0x07, 0xa7, 0x8b]
    ensures KeyWord(t, KeyC1, 43) == [0x4d, 0x2b, 0x30, 0xc5]
    ensures BytesAt(State(t, ExpandKey(t, KeyC1), PlainC1, 10), 0, 0x69, 0xc4, 0xe0, 0xd8)
    ensures BytesAt(State(t, ExpandKey(t, KeyC1), PlainC1, 10), 4, 0x6a, 0x7b, 0x04, 0x30)
    ensures BytesAt(State(t, ExpandKey(t, KeyC1), PlainC1, 10), 8, 0xd8, 0xcd, 0xb7, 0x80)
    ensures BytesAt(State(t, ExpandKey(t, KeyC1), PlainC1, 10), 12, 0x70, 0xb4, 0xc5, 0x5a)
  {
    Upto9(t);
    KeyRound10(t);
    Round10(t);
  }

  /** Words 0..3 are the cipher key. */
  lemma KeyBase(t: Table)
    ensures KeyWord(t, KeyC1, 0) == [0x00, 0x01, 0x02, 0x03]
    ensures KeyWord(t, KeyC1, 1) == [0x04, 0x05, 0x06, 0x07]
    ensures KeyWord(t, KeyC1, 2) == [0x08, 0x09, 0x0a, 0x0b]
    ensures KeyWord(t, KeyC1, 3) == [0x0c, 0x0d, 0x0e, 0x0f]
  {}

  /** Sixteen known bytes make the ciphertext of Appendix C.1. */
  lemma Output(s: Block)
    requires BytesAt(s, 0, 0x69, 0xc4, 0xe0, 0xd8)
    requires BytesAt(s, 4, 0x6a, 0x7b, 0x04, 0x30)
    requires BytesAt(s, 8, 0xd8, 0xcd, 0xb7, 0x80)
    requires BytesAt(s, 12, 0x70, 0xb4, 0xc5, 0x5a)
    ensures s == CipherC1
  {
    BlockOfBytes(s, CipherC1);
  }

  /** Appendix C.1 for any table that agrees with Figure 7. */
  lemma CipherC1Of(t: Table)
    requires forall b: bv8 :: t[b] == FipsSBox(b)
    ensures Encrypt(t, ExpandKey(t, KeyC1), PlainC1) == CipherC1
  {
    Upto10(t);
    Output(State(t, ExpandKey(t, KeyC1), PlainC1, 10));
  }

  /** Appendix C.1 with the S-box table. */
  lemma CipherExampleC1(t: Table)
    requires t == SBoxTable()
    ensures Encrypt(t, ExpandKey(t, KeyC1), PlainC1) == CipherC1
  {
    SBoxTableIsFips(t);
    CipherC1Of(t);
  }

  /**
   * Appendix C.1 through the routines in the order main calls them:
   * make_sbox_array, make_key_schedule, then encrypt_message.
   */
  method EncryptC1() returns (output: Block)
    ensures output == CipherC1
  {
    var aes := new Aes();
    aes.MakeSBoxArray();
    aes.MakeKeySchedule(KeyC1);
    output := aes.EncryptMessage(PlainC1);
    CipherExampleC1(aes.sbox[..]);
  }
}
