/**
 * The AES-128 key expansion of section 5.2 of FIPS 197 (Nk = 4, Nr = 10:
 * 44 four-byte words), with SubWord reading its S-box from a table, as
 * make_key_schedule reads the global sbox array.
 */
module KeyExpansion {
  import opened Bytes
  import opened Rotations
  import opened RoundConstants

  /** array<u8, 176>: the expanded key, 11 round keys of 16 bytes. */
  type Schedule = w: seq<bv8> | |w| == 176 witness seq(176, _ => 0)

  function XorWord(a: Word, b: Word): Word {
    [a[0] ^ b[0], a[1] ^ b[1], a[2] ^ b[2], a[3] ^ b[3]]
  }

  /** SubWord: each byte of the word looked up in the table. */
  function SubWord(t: Table, w: Word): Word {
    [t[w[0]], t[w[1]], t[w[2]], t[w[3]]]
  }

  /** Rcon[j] = [x^(j-1), {00}, {00}, {00}]. */
  function Rcon(j: nat): Word
    requires j < 128
  {
    [RoundConstant(j), 0, 0, 0]
  }

  /**
   * Word i (4 <= i < 44) from word i - 1 (o1) and word i - 4 (o4): the body
   * of the loop of Figure 11 of FIPS 197, xored in make_key_schedule's order.
   */
  function NextKeyWord(t: Table, i: nat, o1: Word, o4: Word): Word
    requires 4 <= i < 44
  {
    if i % 4 == 0 then XorWord(XorWord(o4, SubWord(t, RotateBytes(o1, 1))), Rcon(i / 4))
    else XorWord(o1, o4)
  }

  /** Word i of the expanded key (the pseudo code of Figure 11 of FIPS 197). */
  function KeyWord(t: Table, key: Block, i: nat): Word
    requires i < 44
  {
    if i < 4 then key[4 * i..4 * i + 4]
    else NextKeyWord(t, i, KeyWord(t, key, i - 1), KeyWord(t, key, i - 4))
  }

  /** The 176 bytes of the 44 words, word by word. */
  function ExpandKey(t: Table, key: Block): Schedule {
    seq(176, n requires 0 <= n < 176 => KeyWord(t, key, n / 4)[n % 4])
  }

  /** 44 words laid end to end: byte n is byte n % 4 of word n / 4. */
  function WordBytes(ws: seq<Word>): Schedule
    requires |ws| == 44
  {
    seq(176, n requires 0 <= n < 176 => ws[n / 4][n % 4])
  }

  /** A key whose 44 words are ws expands to ws laid end to end. */
  lemma ExpandKeyWords(t: Table, key: Block, ws: seq<Word>)
    requires |ws| == 44
    requires forall i | 0 <= i < 44 :: KeyWord(t, key, i) == ws[i]
    ensures ExpandKey(t, key) == WordBytes(ws)
  {
  }

  lemma DivMod4(i: nat, j: nat)
    requires j < 4
    ensures (4 * i + j) / 4 == i && (4 * i + j) % 4 == j
  {}

  /** Bytes 4i..4i+3 of the schedule hold word i. */
  lemma ExpandKeyWord(t: Table, key: Block, i: nat)
    requires i < 44
    ensures ExpandKey(t, key)[4 * i..4 * i + 4] == KeyWord(t, key, i)
  {
    var w := ExpandKey(t, key);
    forall j | 0 <= j < 4
      ensures w[4 * i + j] == KeyWord(t, key, i)[j]
    {
      DivMod4(i, j);
    }
  }

  /** The first round key is the cipher key itself. */
  lemma ExpandKeyPrefix(t: Table, key: Block)
    ensures ExpandKey(t, key)[..16] == key
  {
    var w := ExpandKey(t, key);
    forall n | 0 <= n < 16
      ensures w[n] == key[n]
    {
      ExpandKeyWord(t, key, n / 4);
      assert w[n] == w[4 * (n / 4)..4 * (n / 4) + 4][n % 4];
    }
  }

  /** Word i is NextKeyWord of the words make_key_schedule reads back (o1, o4). */
  lemma KeyWordStep(t: Table, key: Block, i: nat, o1: Word, o4: Word, w: Word)
    requires 4 <= i < 44
    requires o1 == KeyWord(t, key, i - 1) && o4 == KeyWord(t, key, i - 4)
    requires w == NextKeyWord(t, i, o1, o4)
    ensures w == KeyWord(t, key, i)
  {}

  /** A word read back from a schedule that agrees with ExpandKey on its first n bytes. */
  lemma ReadWord(a: seq<bv8>, t: Table, key: Block, i: nat, n: nat)
    requires |a| == 176 && 4 * i + 4 <= n <= 176
    requires a[..n] == ExpandKey(t, key)[..n]
    ensures a[4 * i..4 * i + 4] == KeyWord(t, key, i)
  {
    var e := ExpandKey(t, key);
    ExpandKeyWord(t, key, i);
    assert a[4 * i..4 * i + 4] == a[..n][4 * i..4 * i + 4];
    assert e[4 * i..4 * i + 4] == e[..n][4 * i..4 * i + 4];
  }

  /** Storing word i after the first i words extends the agreement by four bytes. */
  lemma StoreNextWord(b: seq<bv8>, a: seq<bv8>, t: Table, key: Block, i: nat)
    requires |a| == 176 && i < 44
    requires a[..4 * i] == ExpandKey(t, key)[..4 * i]
    requires b == a[..4 * i] + KeyWord(t, key, i) + a[4 * i + 4..]
    ensures b[..4 * i + 4] == ExpandKey(t, key)[..4 * i + 4]
  {
    var e := ExpandKey(t, key);
    ExpandKeyWord(t, key, i);
    assert e[..4 * i + 4] == e[..4 * i] + e[4 * i..4 * i + 4];
    assert b[..4 * i + 4] == a[..4 * i] + KeyWord(t, key, i);
  }
}
