# AES-128 encryptor, modelled in Dafny

AESencode.cpp is a small from-scratch AES-128 encryptor that follows
FIPS 197. Its core is:

- arithmetic in Rijndael's field GF(2^8): `rijndael_multiply` and
  `rijndael_inverse`;
- the two rotations `lcs_8bit` and `lcs_4byte`;
- the S-box, computed by `sbox_value` and stored in the global `sbox[256]`
  by `make_sbox_array`;
- the round constants `round_constant`;
- the key expansion `make_key_schedule`, which fills the global
  `key_schedule[176]`;
- the block cipher `encrypt_message`.

This project models that core and proves each routine against a
specification written from FIPS 197.

## Layout

| file | module | contents |
|---|---|---|
| galois_field.dfy | `GaloisField` | GF(2^8) as polynomials over GF(2), with `Mul` by Horner's rule. It proves commutativity, associativity and distributivity, and that 1 is the identity and 0 absorbs. |
| bytes.dfy | `Bytes` | Bytes as field elements (`ToPoly`/`FromPoly`) and `GMul`, the byte product every multiplication is specified against. Also the `Word`, `Block` and `Table` types. |
| wide_poly.dfy | `WidePoly` | Polynomials of degree below 16 (the C `short` accumulator). `Product` models the shift-and-xor loop and `Reduced` the loop that xors in 0x11b. They are proved equal to `Mul`. |
| multiply.dfy | `Multiply` | `rijndael_multiply` as two loop methods and the method that combines them, on `bv8`/`bv16`. |
| powers.dfy | `Powers` | `Pow`, Fermat's `x^256 == x`, and `x * x^254 == 1` for `x != 0`. |
| inversion.dfy | `Inversion` | `rijndael_inverse` (254 multiplications) and the properties of `Inverse`. |
| rotations.dfy | `Rotations` | `lcs_8bit` and `lcs_4byte`. |
| substitution.dfy | `Substitution` | The affine map, `sbox_value`, and the S-box table as a bijection. |
| round_constant.dfy | `RoundConstants` | `round_constant` over the signed `char` argument, and `Rcon` values as powers of x. |
| key_expansion.dfy | `KeyExpansion` | The word recurrence of FIPS 197 Figure 11, and `ExpandKey` (176 bytes). |
| cipher.dfy | `Cipher` | AddRoundKey, SubBytes, ShiftRows, MixColumns, the round structure `State`, and `Encrypt`, all on 16-byte blocks laid out column by column. |
| aes.dfy | `AesEncode` | The class `Aes`, whose two arrays are the global `sbox` and `key_schedule`. It holds `make_sbox_array`, `make_key_schedule` and `encrypt_message` as loops over those arrays. |
| known_answers.dfy | `KnownAnswers` | The S-box of Figure 7 of FIPS 197 as a constant table, and the proof that `sbox_value` computes it for all 256 bytes. |
| example_a1.dfy | `ExampleA1` | The key expansion of Appendix A.1 of FIPS 197, evaluated word by word. |
| example_c1.dfy | `ExampleC1` | The cipher example of Appendix C.1 of FIPS 197, evaluated round by round and column by column, also through the class's methods. |

The specification side uses `GMul`/`Mul` for field products. The
implementation side follows the source's bit operations:

- `rijndael_multiply` tests `b & (1 << i)`, xors `a << i` into a 16-bit
  accumulator, and then cancels bits 15..8 with `0x11b << (i - 8)`;
- `round_constant` doubles with xtime (`Double`), and `DoubleBranch` proves
  that equal to the source's `< 128` branch (AESencode.cpp:111-118);
- `encrypt_message` calls `rijndael_multiply(2, _)` and
  `rijndael_multiply(3, _)` for MixColumns.

Lemmas connect the two sides.

The known answers of FIPS 197 are proved by evaluation. Figure 7 is
written out as `FipsSBox`, a decision on the bits of the byte. Logarithm
and power tables of the generator {03} give each nonzero byte an inverse
that Dafny can check symbolically, so `sbox_value` agrees with Figure 7
on all 256 bytes. The examples of Appendices A.1 and C.1 then follow the
key expansion one word at a time and the cipher one column of one round
at a time, each step a small lemma about constants.

`rijndael_inverse(0)` is 0, not 1: the loop starts from 1 and its first
multiplication is 1 • 0, after which every product stays 0. The model
follows the code and does not special-case 0 (`InverseZero`).
Because 0 then maps to 0, inversion is an involution on all 256 bytes.

`EncryptMessage` has no `modifies` clause, so Dafny proves that it never
writes `sbox` or `keySchedule`. It allocates a fresh 16-byte state array
holding a copy of its input, as the source takes `array<u8, 16>` by value.

## Model

| member | source | states |
|---|---|---|
| GaloisField.MulComm | AESencode.cpp:25-30 | Field multiplication (polynomial product modulo x^8+x^4+x^3+x+1) is commutative. |
| GaloisField.MulAssoc | AESencode.cpp:25-30 | Field multiplication is associative. |
| GaloisField.MulAddLeft | AESencode.cpp:25-30 | Multiplication distributes over addition, which is xor. |
| GaloisField.MulOneLeft | AESencode.cpp:25-30 | 1 is a left identity of field multiplication. |
| GaloisField.MulZeroLeft | AESencode.cpp:25-30 | 0 times anything is 0. |
| WidePoly.MulLoops | AESencode.cpp:35-49 | The schoolbook product of a and b, followed by the reduction from coefficient 15 down to 8, leaves a zero high byte and the field product in the low byte. |
| Multiply.CarrylessProduct | AESencode.cpp:35-41 | The first loop computes the carry-less product of a and b. The accumulator stays below 0x8000, so the signed `short` never overflows. |
| Multiply.Reduce | AESencode.cpp:43-49 | The second loop computes, on any 16-bit value, the reduction that clears bits 15..8 by xoring shifted copies of 0x11b. |
| Multiply.RijndaelMultiply | AESencode.cpp:31-51 | The returned byte is `GMul(a, b)`, the product in Rijndael's field. |
| Bytes.GMulComm | AESencode.cpp:31-51 | `rijndael_multiply` is commutative. |
| Bytes.GMulAssoc | AESencode.cpp:31-51 | `rijndael_multiply` is associative. |
| Bytes.GMulXor | AESencode.cpp:28-30 | The byte product distributes over xor. |
| Bytes.GMulOne | AESencode.cpp:31-51 | Multiplying by 1 gives the same byte. |
| Bytes.GMulOneLeft | AESencode.cpp:31-51 | 1 times a byte gives the same byte. |
| Bytes.GMulZero | AESencode.cpp:31-51 | Multiplying by 0 gives 0. |
| Bytes.ProductExample | AESencode.cpp:31-51 | {57} • {83} = {c1} (section 4.2 of FIPS 197). |
| Bytes.ProductExampleXtime | AESencode.cpp:31-51 | {57} • {13} = {fe} (section 4.2.1 of FIPS 197). |
| Powers.Fermat | AESencode.cpp:53-54 | x^256 = x for every field element, so a^255 = 1 for a ≠ 0. |
| Powers.InverseRight | AESencode.cpp:53-54 | x · x^254 = 1 for every nonzero x. |
| Inversion.RijndaelInverse | AESencode.cpp:55-63 | The loop's result (1 multiplied by x 254 times) is `Inverse(x)` = x^254; multiplied by a nonzero x it gives 1, and it is 0 for x = 0. |
| Inversion.InverseCancels | AESencode.cpp:53-63 | For x ≠ 0, `rijndael_multiply(x, rijndael_inverse(x)) == 1`. |
| Inversion.InverseZero | AESencode.cpp:57-61 | The inverse of 0 as the loop computes it is 0. |
| Inversion.InverseUnique | AESencode.cpp:53-63 | Any b with a • b = 1 is `Inverse(a)`. |
| Inversion.InverseInvolution | AESencode.cpp:53-63 | Inverting twice gives the byte back, for 0 as well. |
| Inversion.InverseExample | AESencode.cpp:53-63 | The inverse of {53} is {ca} (section 5.1.1 of FIPS 197). |
| Rotations.Lcs8Bit | AESencode.cpp:65-69 | For y ≤ 8, `((x << y) % 0x100) + (x >> (8 - y))` in int arithmetic is x rotated left by y bits. |
| Rotations.Lcs8BitExample | AESencode.cpp:65-69 | `lcs_8bit(0x80, 1) == 0x01` and `lcs_8bit(0x53, 4) == 0x35`. |
| Rotations.Lcs4Byte | AESencode.cpp:71-79 | y rounds of `x = {x[1], x[2], x[3], x[0]}` rotate the word left by y bytes (mod 4). |
| Rotations.RotateBytesAt | AESencode.cpp:71-79 | Byte j of the word rotated by n is byte (j + n) mod 4 of the original. |
| Rotations.RotateBytesZero | AESencode.cpp:71-79 | Rotating by 0 or by 4 bytes leaves the word unchanged. |
| Substitution.AffineBits | AESencode.cpp:86 | The xor of the byte, its four left rotations and 0x63 is equation (5.1) of FIPS 197, bit by bit. |
| Substitution.AffineRoundTrip | AESencode.cpp:86 | The affine map is a bijection, inverted by the map of section 5.3.2 of FIPS 197. |
| Substitution.SBoxValue | AESencode.cpp:83-88 | `sbox_value(input)` is the affine image of the inverse of input. |
| Substitution.SBoxInjective | AESencode.cpp:81-88 | Distinct bytes have distinct S-box values. |
| Substitution.SBoxSurjective | AESencode.cpp:81-88 | Every byte is the S-box value of an explicit preimage. |
| Substitution.SBoxTableAt | AESencode.cpp:90-98 | Entry b of the table `make_sbox_array` fills is `sbox_value(b)`. |
| Substitution.SBoxTableInjective | AESencode.cpp:90-98 | Two positions holding the same table entry are the same position: the table has no repeated entry. |
| Substitution.SBoxTableSurjective | AESencode.cpp:90-98 | Every byte occurs in the table, so it is a permutation of 0..255. |
| AesEncode.Aes.constructor | AESencode.cpp:91 | Both tables are zero-filled statics: a 256-byte `sbox` and a 176-byte `key_schedule`. |
| AesEncode.Aes.MakeSBoxArray | AESencode.cpp:92-98 | After the loop, `sbox[i] == sbox_value(i)` for every i in 0..255, and every entry is the one Figure 7 of FIPS 197 lists. |
| RoundConstants.DoubleBranch | AESencode.cpp:110-118 | The doubling step (`2 * p` if `p < 128`, else `(2 * p - 256) ^ 0x1b`) is xtime. |
| RoundConstants.DoubleXtime | AESencode.cpp:110-118 | xtime is multiplication by x in the field. |
| RoundConstants.RoundConstant | AESencode.cpp:102-120 | `round_constant(i)` terminates for every signed char i (`i - 1` wraps from -128 to 127) and is never 0; RoundConstantPower gives its value. |
| RoundConstants.RoundConstantPower | AESencode.cpp:102-120 | `round_constant(i)` is x^((i - 1) mod 256) for every signed char i. This also covers i ≤ 0, where `i - 1` wraps. |
| RoundConstants.RoundConstantValues | AESencode.cpp:102-120 | `round_constant(1..10)` = 01 02 04 08 10 20 40 80 1b 36. |
| KeyExpansion.ExpandKeyPrefix | AESencode.cpp:133-136 | Bytes 0..15 of the schedule are the key. |
| KeyExpansion.ExpandKeyWord | AESencode.cpp:131-160 | Bytes 4i..4i+3 of the schedule are word i of the recurrence. |
| KeyExpansion.ExpandKeyWords | AESencode.cpp:131-160 | When words 0..43 of a key's recurrence are ws, the schedule is ws laid end to end: byte n is byte n mod 4 of word n / 4. |
| KeyExpansion.KeyWordStep | AESencode.cpp:139-157 | Word i ≥ 4 is computed from the words one back (o1) and four back (o4). For i mod 4 = 0 it is `o4 ^ SubWord(RotWord(o1)) ^ [Rcon(i/4), 0, 0, 0]`; otherwise it is `o1 ^ o4`. |
| KeyExpansion.ReadWord | AESencode.cpp:139-140 | Reading bytes 4i..4i+3 from a schedule filled correctly up to that point gives word i. |
| KeyExpansion.StoreNextWord | AESencode.cpp:131-160 | Writing word i after the first i words extends the correct prefix by four bytes. |
| AesEncode.Aes.StoreWord | AESencode.cpp:133-156 | Writing word i changes bytes 4i..4i+3 of `key_schedule` to the word and no other byte. |
| AesEncode.Aes.SubstituteWord | AESencode.cpp:144 | `{sbox[rot[0]], …, sbox[rot[3]]}` is SubWord of rot under the current table. |
| AesEncode.Aes.NextWord | AESencode.cpp:139-157 | From the stored words i - 1 and i - 4, one iteration computes word i of the expansion. |
| AesEncode.Aes.MakeKeySchedule | AESencode.cpp:126-161 | All 176 bytes of `key_schedule` become the FIPS 197 expansion of the key under the current `sbox`. |
| Cipher.ShiftRowsMoves | AESencode.cpp:182-191 | ShiftRows moves the byte at row r, column c to column (c - r) mod 4, and leaves row 0 in place. |
| Cipher.ShiftRowsRow | AESencode.cpp:184-191 | Row r of the shifted state (bytes r, r+4, r+8, r+12) is row r rotated left by r bytes. |
| Cipher.ShiftRowsRoundTrip | AESencode.cpp:182-191 | InvShiftRows undoes ShiftRows. |
| Cipher.InvShiftRowsRoundTrip | AESencode.cpp:182-191 | ShiftRows undoes InvShiftRows, so ShiftRows permutes the 16 bytes. |
| Cipher.GMulTwo | AESencode.cpp:197-200 | `rijndael_multiply(2, b)` is xtime of b. |
| Cipher.GMulThree | AESencode.cpp:197-200 | `rijndael_multiply(3, b)` is xtime(b) ^ b. |
| Cipher.MixColumnEquation | AESencode.cpp:197-200 | The four `mix[k]` formulas are the rows of equation (5.6) of FIPS 197. |
| Cipher.MixColumnExample | AESencode.cpp:192-203 | Column d4 bf 5d 30 mixes to 04 66 81 e5 (round 1 of Appendix B of FIPS 197). |
| Cipher.MixColumnsColumn | AESencode.cpp:192-203 | Column c of MixColumns(s) (bytes 4c..4c+3) is the mix of column c of s. |
| Cipher.AddRoundKeyInvolution | AESencode.cpp:205-210 | Adding the same round key twice restores the state. |
| Cipher.SubBytesInjective | AESencode.cpp:176-179 | With an injective table, SubBytes is injective on blocks. |
| AesEncode.MixByte | AESencode.cpp:197-200 | `rijndael_multiply(2, p) ^ rijndael_multiply(3, q) ^ r ^ s` is the circulant matrix row applied to (p, q, r, s). |
| AesEncode.MixColumnOf | AESencode.cpp:195-201 | The mix array of one column is MixColumn of that column. |
| AesEncode.StoreRow | AESencode.cpp:187-190 | Writing newrow to bytes r, r+4, r+8, r+12 sets row r and leaves the other rows alone. |
| AesEncode.StoreColumn | AESencode.cpp:201 | `memcpy(&input[4c], &mix, 4)` sets column c and leaves the other columns alone. |
| AesEncode.Aes.AddRoundKeyStep | AESencode.cpp:205-210 | Each byte of the block is xored with the same byte of round key `round` (the first and the per-round AddRoundKey). |
| AesEncode.Aes.SubBytesStep | AESencode.cpp:176-179 | Each byte of the block is replaced by its `sbox` entry. |
| AesEncode.Aes.ShiftRowsStep | AESencode.cpp:182-190 | Replacing row i by `lcs_4byte(row i, i)` for i = 0..3 is ShiftRows of the block. |
| AesEncode.Aes.MixColumnsStep | AESencode.cpp:192-203 | Replacing each column i by its mix array is MixColumns of the block. |
| AesEncode.Aes.EncryptMessage | AESencode.cpp:163-214 | The output is `Encrypt` of the input: AddRoundKey with round key 0, then rounds 1..10 of SubBytes, ShiftRows, MixColumns (skipped in round 10) and AddRoundKey. It never writes `sbox` or `key_schedule`. |
| KnownAnswers.LogTable | AESencode.cpp:53-63 | Every nonzero byte is a power of {03}: the power table at the logarithm table's entry gives the byte back. |
| KnownAnswers.PowerTableIsPow3 | AESencode.cpp:31-51 | Entry k of the power table is {03} multiplied by itself k times. |
| KnownAnswers.PowerInverse | AESencode.cpp:53-63 | {03}^k • {03}^(255 - k) = 1 for k < 255, so the inverse of a power of {03} is read off the same table. |
| KnownAnswers.SBoxIsFips | AESencode.cpp:83-88 | For every byte b, `sbox_value(b)` is the entry of Figure 7 of FIPS 197 in row b >> 4, column b & 0x0f. |
| KnownAnswers.SBoxTableIsFips | AESencode.cpp:90-98 | Every entry of the table `make_sbox_array` fills is the entry of Figure 7. |
| ExampleA1.KeyRound1 | AESencode.cpp:139-157 | Words 4..7 of the expansion of the Appendix A.1 key are a0fafe17 88542cb1 23a33939 2a6c7605. |
| ExampleA1.KeyExpansionA1 | AESencode.cpp:125-161 | With the S-box table, the key 2b7e1516 28aed2a6 abf71588 09cf4f3c expands to all 44 words w[0..43] listed in Appendix A.1 of FIPS 197, and the 176-byte schedule is exactly those words laid end to end. |
| ExampleC1.Round1 | AESencode.cpp:174-211 | Round 1 of Appendix C.1 takes the state 00102030405060708090a0b0c0d0e0f0 to 89d810e8855ace682d1843d8cb128fe4. |
| ExampleC1.Round10 | AESencode.cpp:174-211 | The last round of Appendix C.1, without MixColumns, gives the ciphertext 69c4e0d86a7b0430d8cdb78070b4c55a. |
| ExampleC1.CipherExampleC1 | AESencode.cpp:163-214 | With the S-box table and the key 000102..0f, the block 00112233445566778899aabbccddeeff encrypts to 69c4e0d86a7b0430d8cdb78070b4c55a (Appendix C.1 of FIPS 197). |
| ExampleC1.EncryptC1 | AESencode.cpp:219-279 | Calling `make_sbox_array`, `make_key_schedule` and `encrypt_message` in main's order on the Appendix C.1 key and block returns the Appendix C.1 ciphertext. |

## Left out

- `main` (AESencode.cpp:217-289) is left out: file and console I/O, the hex key parsing with `strspn`/`stoi`, zero-padding of the last block, and hex output are I/O and library calls.
- Decryption, the inverse S-box, chaining modes and longer keys are left out. The source does not implement them (they are TODOs at AESencode.cpp:4-12). `InvShiftRows` is stated only to show that ShiftRows is a permutation.
- The Appendix B example and the other key lengths of Appendix C are not evaluated. Appendices A.1 and C.1 already cover the same key expansion and the same rounds.
- Rotations.Lcs8Bit requires y ≤ 8: for larger y the shift `8 - y` is negative, which C++ leaves undefined. The source only calls it with y = 1..4.
- Multiply.RijndaelMultiply is modelled as two methods, one per loop of `rijndael_multiply`, joined by a third. The `short` accumulator is a `bv16`, and it is never negative because it stays below 0x8000. The final narrowing to `u8` is `& 0xFF`.
- `memcpy` calls are modelled as the byte writes they perform. `round_key` is not a separate local: AddRoundKeyStep reads the schedule bytes directly.
- RoundConstants.Double is written as xtime, `(p << 1) ^ (p & 0x80 ? 0x1b : 0)`, and DoubleBranch proves it equal to the source's branch form. `char i - 1` for i = -128 is modelled as the wrap to 127 that the conversion back to `char` performs.
