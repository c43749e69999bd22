/**
 * The encryptor's state and its three routines: the global tables sbox[256]
 * and key_schedule (176 bytes) are the two arrays of an Aes object.
 */
module AesEncode {
  import opened Bytes
  import opened Multiply
  import opened Rotations
  import opened Substitution
  import opened RoundConstants
  import opened KeyExpansion
  import opened Cipher
  import opened KnownAnswers

  /** A row number converted to lcs_4byte's u8 parameter and back. */
  lemma SmallCast(i: int)
    requires 0 <= i < 4
    ensures (i as bv8) as nat == i
  {
    if i == 0 {} else if i == 1 {} else if i == 2 {} else {}
  }

  /**
   * One byte of the mix array of encrypt_message:
   * rijndael_multiply(2, p) ^ rijndael_multiply(3, q) ^ r ^ s.
   */
  method MixByte(p: bv8, q: bv8, r: bv8, s: bv8) returns (m: bv8)
    ensures m == MixRow(p, q, r, s)
  {
    var d := RijndaelMultiply(2, p);
    var t := RijndaelMultiply(3, q);
    m := d ^ t ^ r ^ s;
    GMulTwo(p);
    GMulThree(q);
    MixRowOf(d, t, p, q, r, s);
  }

  /**
   * The mix array of encrypt_message for one column: every byte is a MixByte
   * of the column rotated, as the rows of the MixColumns matrix are.
   */
  method MixColumnOf(a: Word) returns (mix: Word)
    ensures mix == MixColumn(a)
  {
    var m0 := MixByte(a[0], a[1], a[2], a[3]);
    var m1 := MixByte(a[1], a[2], a[3], a[0]);
    var m2 := MixByte(a[2], a[3], a[0], a[1]);
    var m3 := MixByte(a[3], a[0], a[1], a[2]);
    mix := [m0, m1, m2, m3];
  }

  /** The four writes input[r], input[r + 4], input[r + 8], input[r + 12] = newrow[0..3] of the ShiftRows loop. */
  method StoreRow(state: array<bv8>, r: nat, row: Word)
    requires state.Length == 16 && r < 4
    modifies state
    ensures Row(state[..], r) == row
    ensures forall q | 0 <= q < 4 && q != r :: Row(state[..], q) == Row(old(state[..]), q)
  {
    ghost var before: Block := state[..];
    state[r] := row[0];
    state[r + 4] := row[1];
    state[r + 8] := row[2];
    state[r + 12] := row[3];
    assert state[..] == before[r := row[0]][r + 4 := row[1]][r + 8 := row[2]][r + 12 := row[3]];
    RowUpdate(before, state[..], r, row);
  }

  /** memcpy(&input[4 * c], &mix, 4) of the MixColumns loop. */
  method StoreColumn(state: array<bv8>, c: nat, col: Word)
    requires state.Length == 16 && c < 4
    modifies state
    ensures Column(state[..], c) == col
    ensures forall d | 0 <= d < 4 && d != c :: Column(state[..], d) == Column(old(state[..]), d)
  {
    ghost var before: Block := state[..];
    state[4 * c] := col[0];
    state[4 * c + 1] := col[1];
    state[4 * c + 2] := col[2];
    state[4 * c + 3] := col[3];
    assert state[..] == before[4 * c := col[0]][4 * c + 1 := col[1]][4 * c + 2 := col[2]][4 * c + 3 := col[3]];
    ColumnUpdate(before, state[..], c, col);
  }

  class Aes {
    /** u8 sbox[256] */
    const sbox: array<bv8>
    /** array<u8, 176> key_schedule */
    const keySchedule: array<bv8>

    predicate Valid()
      reads this
    {
      sbox.Length == 256 && keySchedule.Length == 176
    }

    /** Both tables are static storage, zero before anything fills them. */
    constructor ()
      ensures Valid() && fresh(sbox) && fresh(keySchedule)
      ensures forall i | 0 <= i < 256 :: sbox[i] == 0
      ensures forall i | 0 <= i < 176 :: keySchedule[i] == 0
    {
      sbox := new bv8[256](_ => 0);
      keySchedule := new bv8[176](_ => 0);
    }

    /**
     * make_sbox_array: entry i of the table becomes sbox_value(i), which
     * makes the table the S-box of Figure 7 of FIPS 197.
     */
    method MakeSBoxArray()
      requires Valid()
      modifies sbox
      ensures sbox[..] == SBoxTable()
      ensures forall b: bv8 :: sbox[b] == FipsSBox(b)
    {
      ghost var t := SBoxTable();
      var i := 0;
      while i <= 0xff
        invariant 0 <= i <= 256
        invariant sbox[..i] == t[..i]
      {
        var v := SBoxValue(i as bv8);
        SBoxTableAt(i as bv8);
        sbox[i] := v;
        i := i + 1;
      }
      assert sbox[..] == sbox[..256];
      assert t == t[..256];
      SBoxTableIsFips(t);
    }
 
    /**
     * Writes word i of the schedule byte by byte, as the memcpy of the key
     * and the two j loops of make_key_schedule do.
     */
    method StoreWord(i: nat, w: Word)
      requires Valid() && i < 44
      modifies keySchedule
      ensures keySchedule[..] == old(keySchedule[..4 * i]) + w + old(keySchedule[4 * i + 4..])
    {
      var j := 0;
      while j < 4
        invariant 0 <= j <= 4
        invariant keySchedule[..] == old(keySchedule[..4 * i]) + w[..j] + old(keySchedule[4 * i + j..])
      {
        keySchedule[4 * i + j] := w[j];
        j := j + 1;
      }
    }

    /** The array s = { sbox[rot[0]], ..., sbox[rot[3]] } of make_key_schedule. */
    method SubstituteWord(rot: Word) returns (s: Word)
      requires Valid()
      ensures s == SubWord(sbox[..], rot)
    {
      var s0 := sbox[rot[0]];
      var s1 := sbox[rot[1]];
      var s2 := sbox[rot[2]];
      var s3 := sbox[rot[3]];
      s := [s0, s1, s2, s3];
    }

    /**
     * One iteration of make_key_schedule for i >= 4: word i from the words
     * one (o1) and four (o4) back, which the earlier iterations stored.
     */
    method NextWord(key: Block, i: nat) returns (w: Word)
      requires Valid() && 4 <= i < 44
      requires keySchedule[4 * (i - 1)..4 * i] == KeyWord(sbox[..], key, i - 1)
      requires keySchedule[4 * (i - 4)..4 * (i - 3)] == KeyWord(sbox[..], key, i - 4)
      ensures w == KeyWord(sbox[..], key, i)
    {
      ghost var t: Table := sbox[..];
      var o1: Word := keySchedule[4 * (i - 1)..4 * i];
      var o4: Word := keySchedule[4 * (i - 4)..4 * (i - 3)];
      if i % 4 == 0 {
        var rot := Lcs4Byte(o1, 1);
        var s := SubstituteWord(rot);
        var rc: Word := [RoundConstant(i / 4), 0, 0, 0];
        w := XorWord(XorWord(o4, s), rc);
      } else {
        w := XorWord(o1, o4);
      }
      KeyWordStep(t, key, i, o1, o4, w);
    }

    /** make_key_schedule: the 44 words of the expanded key, one per iteration. */
    method MakeKeySchedule(key: Block)
      requires Valid()
      modifies keySchedule
      ensures keySchedule[..] == ExpandKey(sbox[..], key)
    {
      ghost var t: Table := sbox[..];
      var i := 0;
      while i < 44
        invariant 0 <= i <= 44
        invariant sbox[..] == t
        invariant keySchedule[..4 * i] == ExpandKey(t, key)[..4 * i]
      {
        var w: Word;
        if i < 4 {
          w := key[4 * i..4 * i + 4];
        } else {
          ReadWord(keySchedule[..], t, key, i - 1, 4 * i);
          ReadWord(keySchedule[..], t, key, i - 4, 4 * i);
          w := NextWord(key, i);
        }
        ghost var before := keySchedule[..];
        StoreWord(i, w);
        StoreNextWord(keySchedule[..], before, t, key, i);
        i := i + 1;
      }
      assert keySchedule[..] == keySchedule[..176];
    }

    /** The AddRoundKey step: state[i] ^= round_key[i], round_key the 16 bytes of the round. */
    method AddRoundKeyStep(state: array<bv8>, round: nat)
      requires Valid() && state.Length == 16 && round <= 10
      modifies state
      ensures state[..] == AddRoundKey(old(state[..]), keySchedule[..], round)
    {
      ghost var g := AddRoundKey(state[..], keySchedule[..], round);
      var i := 0;
      while i < 16
        invariant 0 <= i <= 16
        invariant forall j | 0 <= j < i :: state[j] == g[j]
        invariant forall j | i <= j < 16 :: state[j] == old(state[j])
      {
        var k := keySchedule[round * 16 + i];
        state[i] := state[i] ^ k;
        i := i + 1;
      }
    }

    /** The SubBytes step: state[i] = sbox[state[i]]. */
    method SubBytesStep(state: array<bv8>)
      requires Valid() && state.Length == 16
      modifies state
      ensures state[..] == SubBytes(sbox[..], old(state[..]))
    {
      ghost var g := SubBytes(sbox[..], state[..]);
      var i := 0;
      while i < 16
        invariant 0 <= i <= 16
        invariant forall j | 0 <= j < i :: state[j] == g[j]
        invariant forall j | i <= j < 16 :: state[j] == old(state[j])
      {
        var b := state[i];
        var v := sbox[b];
        state[i] := v;
        i := i + 1;
      }
    }

    /** The ShiftRows step: row i of the state replaced by lcs_4byte(row i, i). */
    method ShiftRowsStep(state: array<bv8>)
      requires state.Length == 16
      modifies state
      ensures state[..] == ShiftRows(old(state[..]))
    {
      ghost var s: Block := state[..];
      ghost var g := ShiftRows(s);
      var i := 0;
      while i < 4
        invariant 0 <= i <= 4
        invariant forall r | 0 <= r < i :: Row(state[..], r) == Row(g, r)
        invariant forall r | i <= r < 4 :: Row(state[..], r) == Row(s, r)
      {
        var b0 := state[i];
        var b1 := state[i + 4];
        var b2 := state[i + 8];
        var b3 := state[i + 12];
        assert [b0, b1, b2, b3] == Row(s, i);
        var newrow := Lcs4Byte([b0, b1, b2, b3], i as bv8);
        SmallCast(i);
        ShiftRowsRow(s, i);
        StoreRow(state, i, newrow);
        i := i + 1;
      }
      RowsEqual(state[..], g);
    }

    /** The MixColumns step: column i of the state replaced by its mix. */
    method MixColumnsStep(state: array<bv8>)
      requires state.Length == 16
      modifies state
      ensures state[..] == MixColumns(old(state[..]))
    {
      ghost var s: Block := state[..];
      ghost var g := MixColumns(s);
      var i := 0;
      while i < 4
        invariant 0 <= i <= 4
        invariant forall c | 0 <= c < i :: Column(state[..], c) == Column(g, c)
        invariant forall c | i <= c < 4 :: Column(state[..], c) == Column(s, c)
      {
        var a0 := state[4 * i];
        var a1 := state[4 * i + 1];
        var a2 := state[4 * i + 2];
        var a3 := state[4 * i + 3];
        assert [a0, a1, a2, a3] == Column(s, i);
        var mix := MixColumnOf([a0, a1, a2, a3]);
        MixColumnsColumn(s, i);
        StoreColumn(state, i, mix);
        i := i + 1;
      }
      ColumnsEqual(state[..], g);
    }

    /**
     * encrypt_message: the block (a copy, as the source takes its array by
     * value) through the initial AddRoundKey and ten rounds, the last one
     * without MixColumns.
     */
    method EncryptMessage(input: Block) returns (output: Block)
      requires Valid()
      ensures output == Encrypt(sbox[..], keySchedule[..], input)
    {
      ghost var t: Table := sbox[..];
      ghost var w: Schedule := keySchedule[..];
      var state := new bv8[16](j requires 0 <= j < 16 => input[j]);
      assert state[..] == input;
      AddRoundKeyStep(state, 0);
      var round := 1;
      while round <= 10
        invariant 1 <= round <= 11
        invariant sbox[..] == t && keySchedule[..] == w
        invariant state[..] == State(t, w, input, round - 1)
      {
        SubBytesStep(state);
        ShiftRowsStep(state);
        if round != 10 {
          MixColumnsStep(state);
        }
        AddRoundKeyStep(state, round);
        round := round + 1;
      }
      output := state[..];
    }
  }
}
