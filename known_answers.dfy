/**
 * The S-box of Figure 7 of FIPS 197, proved equal to the computed one for
 * every byte, and the byte-level facts about the key expansion and the
 * cipher that the examples of Appendices A.1 and C.1 are built from.
 */
module KnownAnswers {
  import opened Bytes
  import opened Inversion
  import opened Substitution
  import opened Cipher
  import opened KeyExpansion
  import opened Rotations
  import opened RoundConstants

  /**
   * The S-box of Figure 7 of FIPS 197, row b >> 4 and column b & 0x0f, as
   * a decision on the bits of b from the highest down.
   */
  function FipsSBox(b: bv8): bv8 {
    if b & 0x80 == 0 then
      if b & 0x40 == 0 then
        if b & 0x20 == 0 then
          if b & 0x10 == 0 then
            // row 0: 63 7c 77 7b f2 6b 6f c5 30 01 67 2b fe d7 ab 76
            (if b & 8 == 0 then (if b & 4 == 0 then (if b & 2 == 0 then (if b & 1 == 0 then 0x63 else 0x7c) else (if b & 1 == 0 then 0x77 else 0x7b)) else (if b & 2 == 0 then (if b & 1 == 0 then 0xf2 else 0x6b) else (if b & 1 == 0 then 0x6f else 0xc5))) else (if b & 4 == 0 then (if b & 2 == 0 then (if b & 1 == 0 then 0x30 else 0x01) else (if b & 1 == 0 then 0x67 else 0x2b)) else (if b & 2 == 0 then (if b & 1 == 0 then 0xfe else 0xd7) else (if b & 1 == 0 then 0xab else 0x76))))
          else
            // row 1: ca 82 c9 7d fa 59 47 f0 ad d4 a2 af 9c a4 72 c0
            (if b & 8 == 0 then (if b & 4 == 0 then (if b & 2 == 0 then (if b & 1 == 0 then 0xca else 0x82) else (if b & 1 == 0 then 0xc9 else 0x7d)) else (if b & 2 == 0 then (if b & 1 == 0 then 0xfa else 0x59) else (if b & 1 == 0 then 0x47 else 0xf0))) else (if b & 4 == 0 then (if b & 2 == 0 then (if b & 1 == 0 then 0xad else 0xd4) else (if b & 1 == 0 then 0xa2 else 0xaf)) else (if b & 2 == 0 then (if b & 1 == 0 then 0x9c else 0xa4) else (if b & 1 == 0 then 0x72 else 0xc0))))
        else
          if b & 0x10 == 0 then
            // row 2: b7 fd 93 26 36 3f f7 cc 34 a5 e5 f1 71 d8 31 15
            (if b & 8 == 0 then (if b & 4 == 0 then (if b & 2 == 0 then (if b & 1 == 0 then 0xb7 else 0xfd) else (if b & 1 == 0 then 0x93 else 0x26)) else (if b & 2 == 0 then (if b & 1 == 0 then 0x36 else 0x3f) else (if b & 1 == 0 then 0xf7 else 0xcc))) else (if b & 4 == 0 then (if b & 2 == 0 then (if b & 1 == 0 then 0x34 else 0xa5) else (if b & 1 == 0 then 0xe5 else 0xf1)) else (if b & 2 == 0 then (if b & 1 == 0 then 0x71 else 0xd8) else (if b & 1 == 0 then 0x31 else 0x15))))
          else
            // row 3: 04 c7 23 c3 18 96 05 9a 07 12 80 e2 eb 27 b2 75
            (if b & 8 == 0 then (if b & 4 == 0 then (if b & 2 == 0 then (if b & 1 == 0 then 0x04 else 0xc7) else (if b & 1 == 0 then 0x23 else 0xc3)) else (if b & 2 == 0 then (if b & 1 == 0 then 0x18 else 0x96) else (if b & 1 == 0 then 0x05 else 0x9a))) else (if b & 4 == 0 then (if b & 2 == 0 then (if b & 1 == 0 then 0x07 else 0x12) else (if b & 1 == 0 then 0x80 else 0xe2)) else (if b & 2 == 0 then (if b & 1 == 0 then 0xeb else 0x27) else (if b & 1 == 0 then 0xb2 else 0x75))))
      else
        if b & 0x20 == 0 then
          if b & 0x10 == 0 then
            // row 4: 09 83 2c 1a 1b 6e 5a a0 52 3b d6 b3 29 e3 2f 84
            (if b & 8 == 0 then (if b & 4 == 0 then (if b & 2 == 0 then (if b & 1 == 0 then 0x09 else 0x83) else (if b & 1 == 0 then 0x2c else 0x1a)) else (if b & 2 == 0 then (if b & 1 == 0 then 0x1b else 0x6e) else (if b & 1 == 0 then 0x5a else 0xa0))) else (if b & 4 == 0 then (if b & 2 == 0 then (if b & 1 == 0 then 0x52 else 0x3b) else (if b & 1 == 0 then 0xd6 else 0xb3)) else (if b & 2 == 0 then (if b & 1 == 0 then 0x29 else 0xe3) else (if b & 1 == 0 then 0x2f else 0x84))))
          else
            // row 5: 53 d1 00 ed 20 fc b1 5b 6a cb be 39 4a 4c 58 cf
            (if b & 8 == 0 then (if b & 4 == 0 then (if b & 2 == 0 then (if b & 1 == 0 then 0x53 else 0xd1) else (if b & 1 == 0 then 0x00 else 0xed)) else (if b & 2 == 0 then (if b & 1 == 0 then 0x20 else 0xfc) else (if b & 1 == 0 then 0xb1 else 0x5b))) else (if b & 4 == 0 then (if b & 2 == 0 then (if b & 1 == 0 then 0x6a else 0xcb) else (if b & 1 == 0 then 0xbe else 0x39)) else (if b & 2 == 0 then (if b & 1 == 0 then 0x4a else 0x4c) else (if b & 1 == 0 then 0x58 else 0xcf))))
        else
          if b & 0x10 == 0 then
            // row 6: d0 ef aa fb 43 4d 33 85 45 f9 02 7f 50 3c 9f a8
            (if b & 8 == 0 then (if b & 4 == 0 then (if b & 2 == 0 then (if b & 1 == 0 then 0xd0 else 0xef) else (if b & 1 == 0 then 0xaa else 0xfb)) else (if b & 2 == 0 then (if b & 1 == 0 then 0x43 else 0x4d) else (if b & 1 == 0 then 0x33 else 0x85))) else (if b & 4 == 0 then (if b & 2 == 0 then (if b & 1 == 0 then 0x45 else 0xf9) else (if b & 1 == 0 then 0x02 else 0x7f)) else (if b & 2 == 0 then (if b & 1 == 0 then 0x50 else 0x3c) else (if b & 1 == 0 then 0x9f else 0xa8))))
          else
            // row 7: 51 a3 40 8f 92 9d 38 f5 bc b6 da 21 10 ff f3 d2
            (if b & 8 == 0 then (if b & 4 == 0 then (if b & 2 == 0 then (if b & 1 == 0 then 0x51 else 0xa3) else (if b & 1 == 0 then 0x40 else 0x8f)) else (if b & 2 == 0 then (if b & 1 == 0 then 0x92 else 0x9d) else (if b & 1 == 0 then 0x38 else 0xf5))) else (if b & 4 == 0 then (if b & 2 == 0 then (if b & 1 == 0 then 0xbc else 0xb6) else (if b & 1 == 0 then 0xda else 0x21)) else (if b & 2 == 0 then (if b & 1 == 0 then 0x10 else 0xff) else (if b & 1 == 0 then 0xf3 else 0xd2))))
    else
      if b & 0x40 == 0 then
        if b & 0x20 == 0 then
          if b & 0x10 == 0 then
            // row 8: cd 0c 13 ec 5f 97 44 17 c4 a7 7e 3d 64 5d 19 73
            (if b & 8 == 0 then (if b & 4 == 0 then (if b & 2 == 0 then (if b & 1 == 0 then 0xcd else 0x0c) else (if b & 1 == 0 then 0x13 else 0xec)) else (if b & 2 == 0 then (if b & 1 == 0 then 0x5f else 0x97) else (if b & 1 == 0 then 0x44 else 0x17))) else (if b & 4 == 0 then (if b & 2 == 0 then (if b & 1 == 0 then 0xc4 else 0xa7) else (if b & 1 == 0 then 0x7e else 0x3d)) else (if b & 2 == 0 then (if b & 1 == 0 then 0x64 else 0x5d) else (if b & 1 == 0 then 0x19 else 0x73))))
          else
            // row 9: 60 81 4f dc 22 2a 90 88 46 ee b8 14 de 5e 0b db
            (if b & 8 == 0 then (if b & 4 == 0 then (if b & 2 == 0 then (if b & 1 == 0 then 0x60 else 0x81) else (if b & 1 == 0 then 0x4f else 0xdc)) else (if b & 2 == 0 then (if b & 1 == 0 then 0x22 else 0x2a) else (if b & 1 == 0 then 0x90 else 0x88))) else (if b & 4 == 0 then (if b & 2 == 0 then (if b & 1 == 0 then 0x46 else 0xee) else (if b & 1 == 0 then 0xb8 else 0x14)) else (if b & 2 == 0 then (if b & 1 == 0 then 0xde else 0x5e) else (if b & 1 == 0 then 0x0b else 0xdb))))
        else
          if b & 0x10 == 0 then
            // row a: e0 32 3a 0a 49 06 24 5c c2 d3 ac 62 91 95 e4 79
            (if b & 8 == 0 then (if b & 4 == 0 then (if b & 2 == 0 then (if b & 1 == 0 then 0xe0 else 0x32) else (if b & 1 == 0 then 0x3a else 0x0a)) else (if b & 2 == 0 then (if b & 1 == 0 then 0x49 else 0x06) else (if b & 1 == 0 then 0x24 else 0x5c))) else (if b & 4 == 0 then (if b & 2 == 0 then (if b & 1 == 0 then 0xc2 else 0xd3) else (if b & 1 == 0 then 0xac else 0x62)) else (if b & 2 == 0 then (if b & 1 == 0 then 0x91 else 0x95) else (if b & 1 == 0 then 0xe4 else 0x79))))
          else
            // row b: e7 c8 37 6d 8d d5 4e a9 6c 56 f4 ea 65 7a ae 08
            (if b & 8 == 0 then (if b & 4 == 0 then (if b & 2 == 0 then (if b & 1 == 0 then 0xe7 else 0xc8) else (if b & 1 == 0 then 0x37 else 0x6d)) else (if b & 2 == 0 then (if b & 1 == 0 then 0x8d else 0xd5) else (if b & 1 == 0 then 0x4e else 0xa9))) else (if b & 4 == 0 then (if b & 2 == 0 then (if b & 1 == 0 then 0x6c else 0x56) else (if b & 1 == 0 then 0xf4 else 0xea)) else (if b & 2 == 0 then (if b & 1 == 0 then 0x65 else 0x7a) else (if b & 1 == 0 then 0xae else 0x08))))
      else
        if b & 0x20 == 0 then
          if b & 0x10 == 0 then
            // row c: ba 78 25 2e 1c a6 b4 c6 e8 dd 74 1f 4b bd 8b 8a
            (if b & 8 == 0 then (if b & 4 == 0 then (if b & 2 == 0 then (if b & 1 == 0 then 0xba else 0x78) else (if b & 1 == 0 then 0x25 else 0x2e)) else (if b & 2 == 0 then (if b & 1 == 0 then 0x1c else 0xa6) else (if b & 1 == 0 then 0xb4 else 0xc6))) else (if b & 4 == 0 then (if b & 2 == 0 then (if b & 1 == 0 then 0xe8 else 0xdd) else (if b & 1 == 0 then 0x74 else 0x1f)) else (if b & 2 == 0 then (if b & 1 == 0 then 0x4b else 0xbd) else (if b & 1 == 0 then 0x8b else 0x8a))))
          else
            // row d: 70 3e b5 66 48 03 f6 0e 61 35 57 b9 86 c1 1d 9e
            (if b & 8 == 0 then (if b & 4 == 0 then (if b & 2 == 0 then (if b & 1 == 0 then 0x70 else 0x3e) else (if b & 1 == 0 then 0xb5 else 0x66)) else (if b & 2 == 0 then (if b & 1 == 0 then 0x48 else 0x03) else (if b & 1 == 0 then 0xf6 else 0x0e))) else (if b & 4 == 0 then (if b & 2 == 0 then (if b & 1 == 0 then 0x61 else 0x35) else (if b & 1 == 0 then 0x57 else 0xb9)) else (if b & 2 == 0 then (if b & 1 == 0 then 0x86 else 0xc1) else (if b & 1 == 0 then 0x1d else 0x9e))))
        else
          if b & 0x10 == 0 then
            // row e: e1 f8 98 11 69 d9 8e 94 9b 1e 87 e9 ce 55 28 df
            (if b & 8 == 0 then (if b & 4 == 0 then (if b & 2 == 0 then (if b & 1 == 0 then 0xe1 else 0xf8) else (if b & 1 == 0 then 0x98 else 0x11)) else (if b & 2 == 0 then (if b & 1 == 0 then 0x69 else 0xd9) else (if b & 1 == 0 then 0x8e else 0x94))) else (if b & 4 == 0 then (if b & 2 == 0 then (if b & 1 == 0 then 0x9b else 0x1e) else (if b & 1 == 0 then 0x87 else 0xe9)) else (if b & 2 == 0 then (if b & 1 == 0 then 0xce else 0x55) else (if b & 1 == 0 then 0x28 else 0xdf))))
          else
            // row f: 8c a1 89 0d bf e6 42 68 41 99 2d 0f b0 54 bb 16
            (if b & 8 == 0 then (if b & 4 == 0 then (if b & 2 == 0 then (if b & 1 == 0 then 0x8c else 0xa1) else (if b & 1 == 0 then 0x89 else 0x0d)) else (if b & 2 == 0 then (if b & 1 == 0 then 0xbf else 0xe6) else (if b & 1 == 0 then 0x42 else 0x68))) else (if b & 4 == 0 then (if b & 2 == 0 then (if b & 1 == 0 then 0x41 else 0x99) else (if b & 1 == 0 then 0x2d else 0x0f)) else (if b & 2 == 0 then (if b & 1 == 0 then 0xb0 else 0x54) else (if b & 1 == 0 then 0xbb else 0x16))))
  }

  /** {03}^k, {03} being a generator of the multiplicative group; {03}^255 = {01}. */
  function PowerOf3(k: bv8): bv8 {
    if k & 0x80 == 0 then
      if k & 0x40 == 0 then
        if k & 0x20 == 0 then
          if k & 0x10 == 0 then
            (if k & 0x08 == 0 then (if k & 0x04 == 0 then (if k & 0x02 == 0 then (if k & 0x01 == 0 then 0x01 else 0x03) else (if k & 0x01 == 0 then 0x05 else 0x0f)) else (if k & 0x02 == 0 then (if k & 0x01 == 0 then 0x11 else 0x33) else (if k & 0x01 == 0 then 0x55 else 0xff))) else (if k & 0x04 == 0 then (if k & 0x02 == 0 then (if k & 0x01 == 0 then 0x1a else 0x2e) else (if k & 0x01 == 0 then 0x72 else 0x96)) else (if k & 0x02 == 0 then (if k & 0x01 == 0 then 0xa1 else 0xf8) else (if k & 0x01 == 0 then 0x13 else 0x35))))
          else
            (if k & 0x08 == 0 then (if k & 0x04 == 0 then (if k & 0x02 == 0 then (if k & 0x01 == 0 then 0x5f else 0xe1) else (if k & 0x01 == 0 then 0x38 else 0x48)) else (if k & 0x02 == 0 then (if k & 0x01 == 0 then 0xd8 else 0x73) else (if k & 0x01 == 0 then 0x95 else 0xa4))) else (if k & 0x04 == 0 then (if k & 0x02 == 0 then (if k & 0x01 == 0 then 0xf7 else 0x02) else (if k & 0x01 == 0 then 0x06 else 0x0a)) else (if k & 0x02 == 0 then (if k & 0x01 == 0 then 0x1e else 0x22) else (if k & 0x01 == 0 then 0x66 else 0xaa))))
        else
          if k & 0x10 == 0 then
            (if k & 0x08 == 0 then (if k & 0x04 == 0 then (if k & 0x02 == 0 then (if k & 0x01 == 0 then 0xe5 else 0x34) else (if k & 0x01 == 0 then 0x5c else 0xe4)) else (if k & 0x02 == 0 then (if k & 0x01 == 0 then 0x37 else 0x59) else (if k & 0x01 == 0 then 0xeb else 0x26))) else (if k & 0x04 == 0 then (if k & 0x02 == 0 then (if k & 0x01 == 0 then 0x6a else 0xbe) else (if k & 0x01 == 0 then 0xd9 else 0x70)) else (if k & 0x02 == 0 then (if k & 0x01 == 0 then 0x90 else 0xab) else (if k & 0x01 == 0 then 0xe6 else 0x31))))
          else
            (if k & 0x08 == 0 then (if k & 0x04 == 0 then (if k & 0x02 == 0 then (if k & 0x01 == 0 then 0x53 else 0xf5) else (if k & 0x01 == 0 then 0x04 else 0x0c)) else (if k & 0x02 == 0 then (if k & 0x01 == 0 then 0x14 else 0x3c) else (if k & 0x01 == 0 then 0x44 else 0xcc))) else (if k & 0x04 == 0 then (if k & 0x02 == 0 then (if k & 0x01 == 0 then 0x4f else 0xd1) else (if k & 0x01 == 0 then 0x68 else 0xb8)) else (if k & 0x02 == 0 then (if k & 0x01 == 0 then 0xd3 else 0x6e) else (if k & 0x01 == 0 then 0xb2 else 0xcd))))
      else
        if k & 0x20 == 0 then
          if k & 0x10 == 0 then
            (if k & 0x08 == 0 then (if k & 0x04 == 0 then (if k & 0x02 == 0 then (if k & 0x01 == 0 then 0x4c else 0xd4) else (if k & 0x01 == 0 then 0x67 else 0xa9)) else (if k & 0x02 == 0 then (if k & 0x01 == 0 then 0xe0 else 0x3b) else (if k & 0x01 == 0 then 0x4d else 0xd7))) else (if k & 0x04 == 0 then (if k & 0x02 == 0 then (if k & 0x01 == 0 then 0x62 else 0xa6) else (if k & 0x01 == 0 then 0xf1 else 0x08)) else (if k & 0x02 == 0 then (if k & 0x01 == 0 then 0x18 else 0x28) else (if k & 0x01 == 0 then 0x78 else 0x88))))
          else
            (if k & 0x08 == 0 then (if k & 0x04 == 0 then (if k & 0x02 == 0 then (if k & 0x01 == 0 then 0x83 else 0x9e) else (if k & 0x01 == 0 then 0xb9 else 0xd0)) else (if k & 0x02 == 0 then (if k & 0x01 == 0 then 0x6b else 0xbd) else (if k & 0x01 == 0 then 0xdc else 0x7f))) else (if k & 0x04 == 0 then (if k & 0x02 == 0 then (if k & 0x01 == 0 then 0x81 else 0x98) else (if k & 0x01 == 0 then 0xb3 else 0xce)) else (if k & 0x02 == 0 then (if k & 0x01 == 0 then 0x49 else 0xdb) else (if k & 0x01 == 0 then 0x76 else 0x9a))))
        else
          if k & 0x10 == 0 then
            (if k & 0x08 == 0 then (if k & 0x04 == 0 then (if k & 0x02 == 0 then (if k & 0x01 == 0 then 0xb5 else 0xc4) else (if k & 0x01 == 0 then 0x57 else 0xf9)) else (if k & 0x02 == 0 then (if k & 0x01 == 0 then 0x10 else 0x30) else (if k & 0x01 == 0 then 0x50 else 0xf0))) else (if k & 0x04 == 0 then (if k & 0x02 == 0 then (if k & 0x01 == 0 then 0x0b else 0x1d) else (if k & 0x01 == 0 then 0x27 else 0x69)) else (if k & 0x02 == 0 then (if k & 0x01 == 0 then 0xbb else 0xd6) else (if k & 0x01 == 0 then 0x61 else 0xa3))))
          else
            (if k & 0x08 == 0 then (if k & 0x04 == 0 then (if k & 0x02 == 0 then (if k & 0x01 == 0 then 0xfe else 0x19) else (if k & 0x01 == 0 then 0x2b else 0x7d)) else (if k & 0x02 == 0 then (if k & 0x01 == 0 then 0x87 else 0x92) else (if k & 0x01 == 0 then 0xad else 0xec))) else (if k & 0x04 == 0 then (if k & 0x02 == 0 then (if k & 0x01 == 0 then 0x2f else 0x71) else (if k & 0x01 == 0 then 0x93 else 0xae)) else (if k & 0x02 == 0 then (if k & 0x01 == 0 then 0xe9 else 0x20) else (if k & 0x01 == 0 then 0x60 else 0xa0))))
    else
      if k & 0x40 == 0 then
        if k & 0x20 == 0 then
          if k & 0x10 == 0 then
            (if k & 0x08 == 0 then (if k & 0x04 == 0 then (if k & 0x02 == 0 then (if k & 0x01 == 0 then 0xfb else 0x16) else (if k & 0x01 == 0 then 0x3a else 0x4e)) else (if k & 0x02 == 0 then (if k & 0x01 == 0 then 0xd2 else 0x6d) else (if k & 0x01 == 0 then 0xb7 else 0xc2))) else (if k & 0x04 == 0 then (if k & 0x02 == 0 then (if k & 0x01 == 0 then 0x5d else 0xe7) else (if k & 0x01 == 0 then 0x32 else 0x56)) else (if k & 0x02 == 0 then (if k & 0x01 == 0 then 0xfa else 0x15) else (if k & 0x01 == 0 then 0x3f else 0x41))))
          else
            (if k & 0x08 == 0 then (if k & 0x04 == 0 then (if k & 0x02 == 0 then (if k & 0x01 == 0 then 0xc3 else 0x5e) else (if k & 0x01 == 0 then 0xe2 else 0x3d)) else (if k & 0x02 == 0 then (if k & 0x01 == 0 then 0x47 else 0xc9) else (if k & 0x01 == 0 then 0x40 else 0xc0))) else (if k & 0x04 == 0 then (if k & 0x02 == 0 then (if k & 0x01 == 0 then 0x5b else 0xed) else (if k & 0x01 == 0 then 0x2c else 0x74)) else (if k & 0x02 == 0 then (if k & 0x01 == 0 then 0x9c else 0xbf) else (if k & 0x01 == 0 then 0xda else 0x75))))
        else
          if k & 0x10 == 0 then
            (if k & 0x08 == 0 then (if k & 0x04 == 0 then (if k & 0x02 == 0 then (if k & 0x01 == 0 then 0x9f else 0xba) else (if k & 0x01 == 0 then 0xd5 else 0x64)) else (if k & 0x02 == 0 then (if k & 0x01 == 0 then 0xac else 0xef) else (if k & 0x01 == 0 then 0x2a else 0x7e))) else (if k & 0x04 == 0 then (if k & 0x02 == 0 then (if k & 0x01 == 0 then 0x82 else 0x9d) else (if k & 0x01 == 0 then 0xbc else 0xdf)) else (if k & 0x02 == 0 then (if k & 0x01 == 0 then 0x7a else 0x8e) else (if k & 0x01 == 0 then 0x89 else 0x80))))
          else
            (if k & 0x08 == 0 then (if k & 0x04 == 0 then (if k & 0x02 == 0 then (if k & 0x01 == 0 then 0x9b else 0xb6) else (if k & 0x01 == 0 then 0xc1 else 0x58)) else (if k & 0x02 == 0 then (if k & 0x01 == 0 then 0xe8 else 0x23) else (if k & 0x01 == 0 then 0x65 else 0xaf))) else (if k & 0x04 == 0 then (if k & 0x02 == 0 then (if k & 0x01 == 0 then 0xea else 0x25) else (if k & 0x01 == 0 then 0x6f else 0xb1)) else (if k & 0x02 == 0 then (if k & 0x01 == 0 then 0xc8 else 0x43) else (if k & 0x01 == 0 then 0xc5 else 0x54))))
      else
        if k & 0x20 == 0 then
          if k & 0x10 == 0 then
            (if k & 0x08 == 0 then (if k & 0x04 == 0 then (if k & 0x02 == 0 then (if k & 0x01 == 0 then 0xfc else 0x1f) else (if k & 0x01 == 0 then 0x21 else 0x63)) else (if k & 0x02 == 0 then (if k & 0x01 == 0 then 0xa5 else 0xf4) else (if k & 0x01 == 0 then 0x07 else 0x09))) else (if k & 0x04 == 0 then (if k & 0x02 == 0 then (if k & 0x01 == 0 then 0x1b else 0x2d) else (if k & 0x01 == 0 then 0x77 else 0x99)) else (if k & 0x02 == 0 then (if k & 0x01 == 0 then 0xb0 else 0xcb) else (if k & 0x01 == 0 then 0x46 else 0xca))))
          else
            (if k & 0x08 == 0 then (if k & 0x04 == 0 then (if k & 0x02 == 0 then (if k & 0x01 == 0 then 0x45 else 0xcf) else (if k & 0x01 == 0 then 0x4a else 0xde)) else (if k & 0x02 == 0 then (if k & 0x01 == 0 then 0x79 else 0x8b) else (if k & 0x01 == 0 then 0x86 else 0x91))) else (if k & 0x04 == 0 then (if k & 0x02 == 0 then (if k & 0x01 == 0 then 0xa8 else 0xe3) else (if k & 0x01 == 0 then 0x3e else 0x42)) else (if k & 0x02 == 0 then (if k & 0x01 == 0 then 0xc6 else 0x51) else (if k & 0x01 == 0 then 0xf3 else 0x0e))))
        else
          if k & 0x10 == 0 then
            (if k & 0x08 == 0 then (if k & 0x04 == 0 then (if k & 0x02 == 0 then (if k & 0x01 == 0 then 0x12 else 0x36) else (if k & 0x01 == 0 then 0x5a else 0xee)) else (if k & 0x02 == 0 then (if k & 0x01 == 0 then 0x29 else 0x7b) else (if k & 0x01 == 0 then 0x8d else 0x8c))) else (if k & 0x04 == 0 then (if k & 0x02 == 0 then (if k & 0x01 == 0 then 0x8f else 0x8a) else (if k & 0x01 == 0 then 0x85 else 0x94)) else (if k & 0x02 == 0 then (if k & 0x01 == 0 then 0xa7 else 0xf2) else (if k & 0x01 == 0 then 0x0d else 0x17))))
          else
            (if k & 0x08 == 0 then (if k & 0x04 == 0 then (if k & 0x02 == 0 then (if k & 0x01 == 0 then 0x39 else 0x4b) else (if k & 0x01 == 0 then 0xdd else 0x7c)) else (if k & 0x02 == 0 then (if k & 0x01 == 0 then 0x84 else 0x97) else (if k & 0x01 == 0 then 0xa2 else 0xfd))) else (if k & 0x04 == 0 then (if k & 0x02 == 0 then (if k & 0x01 == 0 then 0x1c else 0x24) else (if k & 0x01 == 0 then 0x6c else 0xb4)) else (if k & 0x02 == 0 then (if k & 0x01 == 0 then 0xc7 else 0x52) else (if k & 0x01 == 0 then 0xf6 else 0x01))))
  }

  /** The k with {03}^k = b, for b != 0. */
  function LogOf3(b: bv8): bv8 {
    if b & 0x80 == 0 then
      if b & 0x40 == 0 then
        if b & 0x20 == 0 then
          if b & 0x10 == 0 then
            (if b & 0x08 == 0 then (if b & 0x04 == 0 then (if b & 0x02 == 0 then (if b & 0x01 == 0 then 0x00 else 0x00) else (if b & 0x01 == 0 then 0x19 else 0x01)) else (if b & 0x02 == 0 then (if b & 0x01 == 0 then 0x32 else 0x02) else (if b & 0x01 == 0 then 0x1a else 0xc6))) else (if b & 0x04 == 0 then (if b & 0x02 == 0 then (if b & 0x01 == 0 then 0x4b else 0xc7) else (if b & 0x01 == 0 then 0x1b else 0x68)) else (if b & 0x02 == 0 then (if b & 0x01 == 0 then 0x33 else 0xee) else (if b & 0x01 == 0 then 0xdf else 0x03))))
          else
            (if b & 0x08 == 0 then (if b & 0x04 == 0 then (if b & 0x02 == 0 then (if b & 0x01 == 0 then 0x64 else 0x04) else (if b & 0x01 == 0 then 0xe0 else 0x0e)) else (if b & 0x02 == 0 then (if b & 0x01 == 0 then 0x34 else 0x8d) else (if b & 0x01 == 0 then 0x81 else 0xef))) else (if b & 0x04 == 0 then (if b & 0x02 == 0 then (if b & 0x01 == 0 then 0x4c else 0x71) else (if b & 0x01 == 0 then 0x08 else 0xc8)) else (if b & 0x02 == 0 then (if b & 0x01 == 0 then 0xf8 else 0x69) else (if b & 0x01 == 0 then 0x1c else 0xc1))))
        else
          if b & 0x10 == 0 then
            (if b & 0x08 == 0 then (if b & 0x04 == 0 then (if b & 0x02 == 0 then (if b & 0x01 == 0 then 0x7d else 0xc2) else (if b & 0x01 == 0 then 0x1d else 0xb5)) else (if b & 0x02 == 0 then (if b & 0x01 == 0 then 0xf9 else 0xb9) else (if b & 0x01 == 0 then 0x27 else 0x6a))) else (if b & 0x04 == 0 then (if b & 0x02 == 0 then (if b & 0x01 == 0 then 0x4d else 0xe4) else (if b & 0x01 == 0 then 0xa6 else 0x72)) else (if b & 0x02 == 0 then (if b & 0x01 == 0 then 0x9a else 0xc9) else (if b & 0x01 == 0 then 0x09 else 0x78))))
          else
            (if b & 0x08 == 0 then (if b & 0x04 == 0 then (if b & 0x02 == 0 then (if b & 0x01 == 0 then 0x65 else 0x2f) else (if b & 0x01 == 0 then 0x8a else 0x05)) else (if b & 0x02 == 0 then (if b & 0x01 == 0 then 0x21 else 0x0f) else (if b & 0x01 == 0 then 0xe1 else 0x24))) else (if b & 0x04 == 0 then (if b & 0x02 == 0 then (if b & 0x01 == 0 then 0x12 else 0xf0) else (if b & 0x01 == 0 then 0x82 else 0x45)) else (if b & 0x02 == 0 then (if b & 0x01 == 0 then 0x35 else 0x93) else (if b & 0x01 == 0 then 0xda else 0x8e))))
      else
        if b & 0x20 == 0 then
          if b & 0x10 == 0 then
            (if b & 0x08 == 0 then (if b & 0x04 == 0 then (if b & 0x02 == 0 then (if b & 0x01 == 0 then 0x96 else 0x8f) else (if b & 0x01 == 0 then 0xdb else 0xbd)) else (if b & 0x02 == 0 then (if b & 0x01 == 0 then 0x36 else 0xd0) else (if b & 0x01 == 0 then 0xce else 0x94))) else (if b & 0x04 == 0 then (if b & 0x02 == 0 then (if b & 0x01 == 0 then 0x13 else 0x5c) else (if b & 0x01 == 0 then 0xd2 else 0xf1)) else (if b & 0x02 == 0 then (if b & 0x01 == 0 then 0x40 else 0x46) else (if b & 0x01 == 0 then 0x83 else 0x38))))
          else
            (if b & 0x08 == 0 then (if b & 0x04 == 0 then (if b & 0x02 == 0 then (if b & 0x01 == 0 then 0x66 else 0xdd) else (if b & 0x01 == 0 then 0xfd else 0x30)) else (if b & 0x02 == 0 then (if b & 0x01 == 0 then 0xbf else 0x06) else (if b & 0x01 == 0 then 0x8b else 0x62))) else (if b & 0x04 == 0 then (if b & 0x02 == 0 then (if b & 0x01 == 0 then 0xb3 else 0x25) else (if b & 0x01 == 0 then 0xe2 else 0x98)) else (if b & 0x02 == 0 then (if b & 0x01 == 0 then 0x22 else 0x88) else (if b & 0x01 == 0 then 0x91 else 0x10))))
        else
          if b & 0x10 == 0 then
            (if b & 0x08 == 0 then (if b & 0x04 == 0 then (if b & 0x02 == 0 then (if b & 0x01 == 0 then 0x7e else 0x6e) else (if b & 0x01 == 0 then 0x48 else 0xc3)) else (if b & 0x02 == 0 then (if b & 0x01 == 0 then 0xa3 else 0xb6) else (if b & 0x01 == 0 then 0x1e else 0x42))) else (if b & 0x04 == 0 then (if b & 0x02 == 0 then (if b & 0x01 == 0 then 0x3a else 0x6b) else (if b & 0x01 == 0 then 0x28 else 0x54)) else (if b & 0x02 == 0 then (if b & 0x01 == 0 then 0xfa else 0x85) else (if b & 0x01 == 0 then 0x3d else 0xba))))
          else
            (if b & 0x08 == 0 then (if b & 0x04 == 0 then (if b & 0x02 == 0 then (if b & 0x01 == 0 then 0x2b else 0x79) else (if b & 0x01 == 0 then 0x0a else 0x15)) else (if b & 0x02 == 0 then (if b & 0x01 == 0 then 0x9b else 0x9f) else (if b & 0x01 == 0 then 0x5e else 0xca))) else (if b & 0x04 == 0 then (if b & 0x02 == 0 then (if b & 0x01 == 0 then 0x4e else 0xd4) else (if b & 0x01 == 0 then 0xac else 0xe5)) else (if b & 0x02 == 0 then (if b & 0x01 == 0 then 0xf3 else 0x73) else (if b & 0x01 == 0 then 0xa7 else 0x57))))
    else
      if b & 0x40 == 0 then
        if b & 0x20 == 0 then
          if b & 0x10 == 0 then
            (if b & 0x08 == 0 then (if b & 0x04 == 0 then (if b & 0x02 == 0 then (if b & 0x01 == 0 then 0xaf else 0x58) else (if b & 0x01 == 0 then 0xa8 else 0x50)) else (if b & 0x02 == 0 then (if b & 0x01 == 0 then 0xf4 else 0xea) else (if b & 0x01 == 0 then 0xd6 else 0x74))) else (if b & 0x04 == 0 then (if b & 0x02 == 0 then (if b & 0x01 == 0 then 0x4f else 0xae) else (if b & 0x01 == 0 then 0xe9 else 0xd5)) else (if b & 0x02 == 0 then (if b & 0x01 == 0 then 0xe7 else 0xe6) else (if b & 0x01 == 0 then 0xad else 0xe8))))
          else
            (if b & 0x08 == 0 then (if b & 0x04 == 0 then (if b & 0x02 == 0 then (if b & 0x01 == 0 then 0x2c else 0xd7) else (if b & 0x01 == 0 then 0x75 else 0x7a)) else (if b & 0x02 == 0 then (if b & 0x01 == 0 then 0xeb else 0x16) else (if b & 0x01 == 0 then 0x0b else 0xf5))) else (if b & 0x04 == 0 then (if b & 0x02 == 0 then (if b & 0x01 == 0 then 0x59 else 0xcb) else (if b & 0x01 == 0 then 0x5f else 0xb0)) else (if b & 0x02 == 0 then (if b & 0x01 == 0 then 0x9c else 0xa9) else (if b & 0x01 == 0 then 0x51 else 0xa0))))
        else
          if b & 0x10 == 0 then
            (if b & 0x08 == 0 then (if b & 0x04 == 0 then (if b & 0x02 == 0 then (if b & 0x01 == 0 then 0x7f else 0x0c) else (if b & 0x01 == 0 then 0xf6 else 0x6f)) else (if b & 0x02 == 0 then (if b & 0x01 == 0 then 0x17 else 0xc4) else (if b & 0x01 == 0 then 0x49 else 0xec))) else (if b & 0x04 == 0 then (if b & 0x02 == 0 then (if b & 0x01 == 0 then 0xd8 else 0x43) else (if b & 0x01 == 0 then 0x1f else 0x2d)) else (if b & 0x02 == 0 then (if b & 0x01 == 0 then 0xa4 else 0x76) else (if b & 0x01 == 0 then 0x7b else 0xb7))))
          else
            (if b & 0x08 == 0 then (if b & 0x04 == 0 then (if b & 0x02 == 0 then (if b & 0x01 == 0 then 0xcc else 0xbb) else (if b & 0x01 == 0 then 0x3e else 0x5a)) else (if b & 0x02 == 0 then (if b & 0x01 == 0 then 0xfb else 0x60) else (if b & 0x01 == 0 then 0xb1 else 0x86))) else (if b & 0x04 == 0 then (if b & 0x02 == 0 then (if b & 0x01 == 0 then 0x3b else 0x52) else (if b & 0x01 == 0 then 0xa1 else 0x6c)) else (if b & 0x02 == 0 then (if b & 0x01 == 0 then 0xaa else 0x55) else (if b & 0x01 == 0 then 0x29 else 0x9d))))
      else
        if b & 0x20 == 0 then
          if b & 0x10 == 0 then
            (if b & 0x08 == 0 then (if b & 0x04 == 0 then (if b & 0x02 == 0 then (if b & 0x01 == 0 then 0x97 else 0xb2) else (if b & 0x01 == 0 then 0x87 else 0x90)) else (if b & 0x02 == 0 then (if b & 0x01 == 0 then 0x61 else 0xbe) else (if b & 0x01 == 0 then 0xdc else 0xfc))) else (if b & 0x04 == 0 then (if b & 0x02 == 0 then (if b & 0x01 == 0 then 0xbc else 0x95) else (if b & 0x01 == 0 then 0xcf else 0xcd)) else (if b & 0x02 == 0 then (if b & 0x01 == 0 then 0x37 else 0x3f) else (if b & 0x01 == 0 then 0x5b else 0xd1))))
          else
            (if b & 0x08 == 0 then (if b & 0x04 == 0 then (if b & 0x02 == 0 then (if b & 0x01 == 0 then 0x53 else 0x39) else (if b & 0x01 == 0 then 0x84 else 0x3c)) else (if b & 0x02 == 0 then (if b & 0x01 == 0 then 0x41 else 0xa2) else (if b & 0x01 == 0 then 0x6d else 0x47))) else (if b & 0x04 == 0 then (if b & 0x02 == 0 then (if b & 0x01 == 0 then 0x14 else 0x2a) else (if b & 0x01 == 0 then 0x9e else 0x5d)) else (if b & 0x02 == 0 then (if b & 0x01 == 0 then 0x56 else 0xf2) else (if b & 0x01 == 0 then 0xd3 else 0xab))))
        else
          if b & 0x10 == 0 then
            (if b & 0x08 == 0 then (if b & 0x04 == 0 then (if b & 0x02 == 0 then (if b & 0x01 == 0 then 0x44 else 0x11) else (if b & 0x01 == 0 then 0x92 else 0xd9)) else (if b & 0x02 == 0 then (if b & 0x01 == 0 then 0x23 else 0x20) else (if b & 0x01 == 0 then 0x2e else 0x89))) else (if b & 0x04 == 0 then (if b & 0x02 == 0 then (if b & 0x01 == 0 then 0xb4 else 0x7c) else (if b & 0x01 == 0 then 0xb8 else 0x26)) else (if b & 0x02 == 0 then (if b & 0x01 == 0 then 0x77 else 0x99) else (if b & 0x01 == 0 then 0xe3 else 0xa5))))
          else
            (if b & 0x08 == 0 then (if b & 0x04 == 0 then (if b & 0x02 == 0 then (if b & 0x01 == 0 then 0x67 else 0x4a) else (if b & 0x01 == 0 then 0xed else 0xde)) else (if b & 0x02 == 0 then (if b & 0x01 == 0 then 0xc5 else 0x31) else (if b & 0x01 == 0 then 0xfe else 0x18))) else (if b & 0x04 == 0 then (if b & 0x02 == 0 then (if b & 0x01 == 0 then 0x0d else 0x63) else (if b & 0x01 == 0 then 0x8c else 0x80)) else (if b & 0x02 == 0 then (if b & 0x01 == 0 then 0xc0 else 0xf7) else (if b & 0x01 == 0 then 0x70 else 0x07))))
  }

  /** Every nonzero byte is a power of {03}, and its S-box entry is in Figure 7. */
  lemma LogTable(b: bv8)
    requires b != 0
    ensures PowerOf3(LogOf3(b)) == b
  {}

  lemma FipsTable(b: bv8)
    requires b != 0
    ensures Affine(PowerOf3(255 - LogOf3(b))) == FipsSBox(b)
  {}

  /** {03}^k, multiplying by {03} k times. */
  function Pow3(k: bv8): bv8
    decreases k as int
  {
    if k == 0 then 1 else Triple(Pow3(k - 1))
  }

  /** Consecutive entries of the power table differ by the factor {03}. */
  lemma PowerTable(k: bv8)
    requires k != 0
    ensures PowerOf3(k) == Triple(PowerOf3(k - 1))
  {}

  lemma PowerTableStep(k: bv8, p: bv8)
    requires k != 0
    requires p == PowerOf3(k - 1) && p == Pow3(k - 1)
    ensures PowerOf3(k) == Pow3(k)
  {
    PowerTable(k);
  }

  /** The power table holds the powers of {03}. */
  lemma {:induction false} PowerTableIsPow3(k: bv8)
    ensures PowerOf3(k) == Pow3(k)
    decreases k as int
  {
    if k == 0 {
      assert PowerOf3(0) == 1;
    } else {
      PowerTableIsPow3(k - 1);
      PowerTableStep(k, Pow3(k - 1));
    }
  }

  /**
   * Walking the powers of the generator {03}: when y is the inverse of x,
   * the inverse of {03} * x is the y2 with {03} * y2 = y.
   */
  lemma InverseOfTriple(x: bv8, y: bv8, x2: bv8, y2: bv8)
    requires GMul(x, y) == 1
    requires x2 == Triple(x) && y == Triple(y2)
    ensures GMul(x2, y2) == 1
  {
    GMulThree(x);
    GMulThree(y2);
    GMulComm(3, x);
    GMulAssoc(x, 3, y2);
  }

  lemma PowerInverseBase(k: bv8)
    requires k == 0
    ensures GMul(Pow3(k), Pow3(255 - k)) == 1
  {
    PowerTableIsPow3(255 - k);
    assert PowerOf3(255 - k) == 1;
    GMulOne(1);
  }

  /** {03}^(255 - k) is the inverse of {03}^k. */
  lemma {:induction false} PowerInverse(k: bv8)
    requires k < 255
    ensures GMul(Pow3(k), Pow3(255 - k)) == 1
    decreases k as int
  {
    if k == 0 {
      PowerInverseBase(k);
    } else {
      PowerInverse(k - 1);
      assert 255 - (k - 1) - 1 == 255 - k;
      InverseOfTriple(Pow3(k - 1), Pow3(255 - (k - 1)), Pow3(k), Pow3(255 - k));
    }
  }

  /**
   * sbox_value agrees with Figure 7 for every byte: a nonzero b is {03}^k
   * for k its logarithm, so its inverse is {03}^(255 - k), whose affine
   * image Figure 7 lists.
   */
  lemma SBoxIsFips(b: bv8)
    ensures SBox(b) == FipsSBox(b)
  {
    if b == 0 {
      InverseZero();
      assert FipsSBox(0) == 0x63;
      assert Affine(0) == 0x63;
    } else {
      var k := LogOf3(b);
      LogTable(b);
      FipsTable(b);
      assert k < 255;
      PowerTableIsPow3(k);
      PowerTableIsPow3(255 - k);
      PowerInverse(k);
      InverseUnique(b, PowerOf3(255 - k));
    }
  }

  /** Every entry of the S-box table agrees with Figure 7. */
  lemma SBoxTableIsFips(t: Table)
    requires t == SBoxTable()
    ensures forall b: bv8 :: t[b] == FipsSBox(b)
  {
    forall b: bv8
      ensures t[b] == FipsSBox(b)
    {
      SBoxTableAt(b);
      SBoxIsFips(b);
    }
  }

  /** Bytes i..i+3 of s are a, b, c, d. */
  predicate BytesAt(s: seq<bv8>, i: nat, a: bv8, b: bv8, c: bv8, d: bv8)
    requires i + 4 <= |s|
  {
    s[i] == a && s[i + 1] == b && s[i + 2] == c && s[i + 3] == d
  }

  /** Byte j of word i of the schedule. */
  lemma ExpandKeyByte(t: Table, key: Block, i: nat, j: nat)
    requires i < 44 && j < 4
    ensures ExpandKey(t, key)[4 * i + j] == KeyWord(t, key, i)[j]
  {
    DivMod4(i, j);
  }

  /** Byte j of column c after SubBytes and ShiftRows. */
  lemma SubShiftByte(t: Table, s: Block, c: nat, j: nat)
    requires c < 4 && j < 4
    ensures ShiftRows(SubBytes(t, s))[4 * c + j] == t[s[j + 4 * ((c + j) % 4)]]
  {
    DivMod4(c, j);
  }

  /** Byte j of column c after MixColumns. */
  lemma MixColumnsByte(x: Block, c: nat, j: nat)
    requires c < 4 && j < 4
    ensures MixColumns(x)[4 * c + j] == MixColumn(Column(x, c))[j]
  {
    DivMod4(c, j);
    var n := 4 * c + j;
    assert n < 16 && n / 4 == c && n % 4 == j;
  }

  /** Entry b of a table that agrees with Figure 7 everywhere. */
  lemma FipsAt(t: Table, b: bv8, v: bv8)
    requires forall b: bv8 :: t[b] == FipsSBox(b)
    requires v == FipsSBox(b)
    ensures t[b] == v
  {}

  /** Two blocks that agree byte by byte are equal. */
  lemma BlockOfBytes(a: Block, b: Block)
    requires a[0] == b[0] && a[1] == b[1] && a[2] == b[2] && a[3] == b[3]
    requires a[4] == b[4] && a[5] == b[5] && a[6] == b[6] && a[7] == b[7]
    requires a[8] == b[8] && a[9] == b[9] && a[10] == b[10] && a[11] == b[11]
    requires a[12] == b[12] && a[13] == b[13] && a[14] == b[14] && a[15] == b[15]
    ensures a == b
  {
    forall n | 0 <= n < 16
      ensures a[n] == b[n]
    {
      assert n < 4 || n < 8 || n < 12 || n < 16;
    }
  }
}
