// aes_cbc.c: the AES block cipher on four 32-bit words, with the columns of the state in the words,
// most significant byte first. Encryption and decryption work on whole words and on a key schedule
// that AES_convert_key has changed for decryption; proved is that decryption undoes encryption
// for every schedule and every number of rounds (the equivalent inverse cipher of section 5.3.5
// of FIPS 197).
module Aes {
  type Byte = bv8
  type Word = bv32

  // ---------------------------------------------------------------- the two tables

  // Entry i of sixteen.
  function Pick(i: Byte, v0: Byte, v1: Byte, v2: Byte, v3: Byte, v4: Byte, v5: Byte, v6: Byte, v7: Byte,
                v8: Byte, v9: Byte, v10: Byte, v11: Byte, v12: Byte, v13: Byte, v14: Byte, v15: Byte): Byte
  {
    if i < 8 then
      if i < 4 then if i < 2 then if i < 1 then v0 else v1 else if i < 3 then v2 else v3
      else if i < 6 then if i < 5 then v4 else v5 else if i < 7 then v6 else v7
    else
      if i < 12 then if i < 10 then if i < 9 then v8 else v9 else if i < 11 then v10 else v11
      else if i < 14 then if i < 13 then v12 else v13 else if i < 15 then v14 else v15
  }

  // aes_sbox
  function Sbox(x: Byte): Byte {
    var lo := x & 0x0F;
    Pick(x >> 4,
      Pick(lo, 0x63, 0x7C, 0x77, 0x7B, 0xF2, 0x6B, 0x6F, 0xC5,
               0x30, 0x01, 0x67, 0x2B, 0xFE, 0xD7, 0xAB, 0x76),
      Pick(lo, 0xCA, 0x82, 0xC9, 0x7D, 0xFA, 0x59, 0x47, 0xF0,
               0xAD, 0xD4, 0xA2, 0xAF, 0x9C, 0xA4, 0x72, 0xC0),
      Pick(lo, 0xB7, 0xFD, 0x93, 0x26, 0x36, 0x3F, 0xF7, 0xCC,
               0x34, 0xA5, 0xE5, 0xF1, 0x71, 0xD8, 0x31, 0x15),
      Pick(lo, 0x04, 0xC7, 0x23, 0xC3, 0x18, 0x96, 0x05, 0x9A,
               0x07, 0x12, 0x80, 0xE2, 0xEB, 0x27, 0xB2, 0x75),
      Pick(lo, 0x09, 0x83, 0x2C, 0x1A, 0x1B, 0x6E, 0x5A, 0xA0,
               0x52, 0x3B, 0xD6, 0xB3, 0x29, 0xE3, 0x2F, 0x84),
      Pick(lo, 0x53, 0xD1, 0x00, 0xED, 0x20, 0xFC, 0xB1, 0x5B,
               0x6A, 0xCB, 0xBE, 0x39, 0x4A, 0x4C, 0x58, 0xCF),
      Pick(lo, 0xD0, 0xEF, 0xAA, 0xFB, 0x43, 0x4D, 0x33, 0x85,
               0x45, 0xF9, 0x02, 0x7F, 0x50, 0x3C, 0x9F, 0xA8),
      Pick(lo, 0x51, 0xA3, 0x40, 0x8F, 0x92, 0x9D, 0x38, 0xF5,
               0xBC, 0xB6, 0xDA, 0x21, 0x10, 0xFF, 0xF3, 0xD2),
      Pick(lo, 0xCD, 0x0C, 0x13, 0xEC, 0x5F, 0x97, 0x44, 0x17,
               0xC4, 0xA7, 0x7E, 0x3D, 0x64, 0x5D, 0x19, 0x73),
      Pick(lo, 0x60, 0x81, 0x4F, 0xDC, 0x22, 0x2A, 0x90, 0x88,
               0x46, 0xEE, 0xB8, 0x14, 0xDE, 0x5E, 0x0B, 0xDB),
      Pick(lo, 0xE0, 0x32, 0x3A, 0x0A, 0x49, 0x06, 0x24, 0x5C,
               0xC2, 0xD3, 0xAC, 0x62, 0x91, 0x95, 0xE4, 0x79),
      Pick(lo, 0xE7, 0xC8, 0x37, 0x6D, 0x8D, 0xD5, 0x4E, 0xA9,
               0x6C, 0x56, 0xF4, 0xEA, 0x65, 0x7A, 0xAE, 0x08),
      Pick(lo, 0xBA, 0x78, 0x25, 0x2E, 0x1C, 0xA6, 0xB4, 0xC6,
               0xE8, 0xDD, 0x74, 0x1F, 0x4B, 0xBD, 0x8B, 0x8A),
      Pick(lo, 0x70, 0x3E, 0xB5, 0x66, 0x48, 0x03, 0xF6, 0x0E,
               0x61, 0x35, 0x57, 0xB9, 0x86, 0xC1, 0x1D, 0x9E),
      Pick(lo, 0xE1, 0xF8, 0x98, 0x11, 0x69, 0xD9, 0x8E, 0x94,
               0x9B, 0x1E, 0x87, 0xE9, 0xCE, 0x55, 0x28, 0xDF),
      Pick(lo, 0x8C, 0xA1, 0x89, 0x0D, 0xBF, 0xE6, 0x42, 0x68,
               0x41, 0x99, 0x2D, 0x0F, 0xB0, 0x54, 0xBB, 0x16))
  }

  // aes_isbox
  function InvSbox(x: Byte): Byte {
    var lo := x & 0x0F;
    Pick(x >> 4,
      Pick(lo, 0x52, 0x09, 0x6A, 0xD5, 0x30, 0x36, 0xA5, 0x38,
               0xBF, 0x40, 0xA3, 0x9E, 0x81, 0xF3, 0xD7, 0xFB),
      Pick(lo, 0x7C, 0xE3, 0x39, 0x82, 0x9B, 0x2F, 0xFF, 0x87,
               0x34, 0x8E, 0x43, 0x44, 0xC4, 0xDE, 0xE9, 0xCB),
      Pick(lo, 0x54, 0x7B, 0x94, 0x32, 0xA6, 0xC2, 0x23, 0x3D,
               0xEE, 0x4C, 0x95, 0x0B, 0x42, 0xFA, 0xC3, 0x4E),
      Pick(lo, 0x08, 0x2E, 0xA1, 0x66, 0x28, 0xD9, 0x24, 0xB2,
               0x76, 0x5B, 0xA2, 0x49, 0x6D, 0x8B, 0xD1, 0x25),
      Pick(lo, 0x72, 0xF8, 0xF6, 0x64, 0x86, 0x68, 0x98, 0x16,
               0xD4, 0xA4, 0x5C, 0xCC, 0x5D, 0x65, 0xB6, 0x92),
      Pick(lo, 0x6C, 0x70, 0x48, 0x50, 0xFD, 0xED, 0xB9, 0xDA,
               0x5E, 0x15, 0x46, 0x57, 0xA7, 0x8D, 0x9D, 0x84),
      Pick(lo, 0x90, 0xD8, 0xAB, 0x00, 0x8C, 0xBC, 0xD3, 0x0A,
               0xF7, 0xE4, 0x58, 0x05, 0xB8, 0xB3, 0x45, 0x06),
      Pick(lo, 0xD0, 0x2C, 0x1E, 0x8F, 0xCA, 0x3F, 0x0F, 0x02,
               0xC1, 0xAF, 0xBD, 0x03, 0x01, 0x13, 0x8A, 0x6B),
      Pick(lo, 0x3A, 0x91, 0x11, 0x41, 0x4F, 0x67, 0xDC, 0xEA,
               0x97, 0xF2, 0xCF, 0xCE, 0xF0, 0xB4, 0xE6, 0x73),
      Pick(lo, 0x96, 0xAC, 0x74, 0x22, 0xE7, 0xAD, 0x35, 0x85,
               0xE2, 0xF9, 0x37, 0xE8, 0x1C, 0x75, 0xDF, 0x6E),
      Pick(lo, 0x47, 0xF1, 0x1A, 0x71, 0x1D, 0x29, 0xC5, 0x89,
               0x6F, 0xB7, 0x62, 0x0E, 0xAA, 0x18, 0xBE, 0x1B),
      Pick(lo, 0xFC, 0x56, 0x3E, 0x4B, 0xC6, 0xD2, 0x79, 0x20,
               0x9A, 0xDB, 0xC0, 0xFE, 0x78, 0xCD, 0x5A, 0xF4),
      Pick(lo, 0x1F, 0xDD, 0xA8, 0x33, 0x88, 0x07, 0xC7, 0x31,
               0xB1, 0x12, 0x10, 0x59, 0x27, 0x80, 0xEC, 0x5F),
      Pick(lo, 0x60, 0x51, 0x7F, 0xA9, 0x19, 0xB5, 0x4A, 0x0D,
               0x2D, 0xE5, 0x7A, 0x9F, 0x93, 0xC9, 0x9C, 0xEF),
      Pick(lo, 0xA0, 0xE0, 0x3B, 0x4D, 0xAE, 0x2A, 0xF5, 0xB0,
               0xC8, 0xEB, 0xBB, 0x3C, 0x83, 0x53, 0x99, 0x61),
      Pick(lo, 0x17, 0x2B, 0x04, 0x7E, 0xBA, 0x77, 0xD6, 0x26,
               0xE1, 0x69, 0x14, 0x63, 0x55, 0x21, 0x0C, 0x7D))
  }

  lemma SboxInvertsLow(x: Byte)
    requires x < 0x80
    ensures InvSbox(Sbox(x)) == x
  {
  }

  lemma SboxInvertsHigh(x: Byte)
    requires x >= 0x80
    ensures InvSbox(Sbox(x)) == x
  {
  }

  // aes_isbox is the inverse of aes_sbox.
  lemma SboxInverts(x: Byte)
    ensures InvSbox(Sbox(x)) == x
  {
    hide Sbox, InvSbox;
    if x < 0x80 { SboxInvertsLow(x); } else { SboxInvertsHigh(x); }
  }

  // ---------------------------------------------------------------- one column

  // Addition in GF(2^8)
  function Add(x: Byte, y: Byte): Byte { x ^ y }

  // AES_xtime, as the unsigned char it returns.
  function XTime(x: Byte): Byte { if x & 0x80 != 0 then (x << 1) ^ 0x1B else x << 1 }

  lemma XTimeAdds(x: Byte, y: Byte)
    ensures XTime(Add(x, y)) == Add(XTime(x), XTime(y))
  {
    if x & 0x80 != 0 {
      if y & 0x80 != 0 {} else {}
    } else {
      if y & 0x80 != 0 {} else {}
    }
  }

  datatype Column = Column(a0: Byte, a1: Byte, a2: Byte, a3: Byte)

  function AddColumns(c: Column, d: Column): Column {
    Column(Add(c.a0, d.a0), Add(c.a1, d.a1), Add(c.a2, d.a2), Add(c.a3, d.a3))
  }

  // MixColumns as AES_encrypt computes it
  function Mix(c: Column): Column {
    var t := Add(Add(Add(c.a0, c.a1), c.a2), c.a3);
    Column(Add(c.a0, Add(t, XTime(Add(c.a0, c.a1)))), Add(c.a1, Add(t, XTime(Add(c.a1, c.a2)))),
           Add(c.a2, Add(t, XTime(Add(c.a2, c.a3)))), Add(c.a3, Add(t, XTime(Add(c.a3, c.a0)))))
  }

  function Sum5(a: Byte, b: Byte, c: Byte, d: Byte, e: Byte): Byte { Add(Add(Add(Add(a, b), c), d), e) }

  // InvMixColumns as AES_decrypt computes it
  function InvMix(c: Column): Column {
    var xt0, xt1 := XTime(Add(c.a0, c.a1)), XTime(Add(c.a1, c.a2));
    var xt2, xt3 := XTime(Add(c.a2, c.a3)), XTime(Add(c.a3, c.a0));
    var xt4, xt5 := XTime(Add(xt0, xt1)), XTime(Add(xt1, xt2));
    var xt6 := XTime(Add(xt4, xt5));
    Column(Add(xt0, Sum5(c.a1, c.a2, c.a3, xt4, xt6)), Add(xt1, Sum5(c.a0, c.a2, c.a3, xt5, xt6)),
           Add(xt2, Sum5(c.a0, c.a1, c.a3, xt4, xt6)), Add(xt3, Sum5(c.a0, c.a1, c.a2, xt5, xt6)))
  }

  // ---------------------------------------------------------------- both are linear

  lemma AddCommutes(a: Byte, b: Byte)
    ensures Add(a, b) == Add(b, a)
  {
  }

  lemma AddAssociates(a: Byte, b: Byte, c: Byte)
    ensures Add(Add(a, b), c) == Add(a, Add(b, c))
  {
  }

  lemma AddPairs(a: Byte, b: Byte, c: Byte, d: Byte)
    ensures Add(Add(a, b), Add(c, d)) == Add(Add(a, c), Add(b, d))
  {
    hide Add;
    AddAssociates(a, b, Add(c, d));
    AddAssociates(b, c, d);
    AddCommutes(b, c);
    AddAssociates(c, b, d);
    AddAssociates(a, c, Add(b, d));
  }

  lemma AddZero(a: Byte)
    ensures Add(a, 0) == a && Add(0, a) == a
  {
  }

  // The doubled sum of two bytes of a sum of columns.
  lemma XTimeOfPair(a: Byte, b: Byte, c: Byte, d: Byte)
    ensures XTime(Add(Add(a, c), Add(b, d))) == Add(XTime(Add(a, b)), XTime(Add(c, d)))
  {
    hide Add, XTime;
    AddPairs(a, c, b, d);
    XTimeAdds(Add(a, b), Add(c, d));
  }

  lemma MixedByteAdds(a: Byte, t: Byte, p: Byte, b: Byte, u: Byte, q: Byte)
    ensures Add(Add(a, b), Add(Add(t, u), Add(p, q))) == Add(Add(a, Add(t, p)), Add(b, Add(u, q)))
  {
    hide Add;
    AddPairs(t, u, p, q);
    AddPairs(a, b, Add(t, p), Add(u, q));
  }

  lemma Sum4Adds(a: Byte, b: Byte, c: Byte, d: Byte, a': Byte, b': Byte, c': Byte, d': Byte)
    ensures Add(Add(Add(Add(a, a'), Add(b, b')), Add(c, c')), Add(d, d'))
            == Add(Add(Add(Add(a, b), c), d), Add(Add(Add(a', b'), c'), d'))
  {
    hide Add;
    AddPairs(a, a', b, b');
    AddPairs(Add(a, b), Add(a', b'), c, c');
    AddPairs(Add(Add(a, b), c), Add(Add(a', b'), c'), d, d');
  }

  lemma MixIsLinear(c: Column, d: Column)
    ensures Mix(AddColumns(c, d)) == AddColumns(Mix(c), Mix(d))
  {
    hide Add, XTime;
    Sum4Adds(c.a0, c.a1, c.a2, c.a3, d.a0, d.a1, d.a2, d.a3);
    var t, u := Add(Add(Add(c.a0, c.a1), c.a2), c.a3), Add(Add(Add(d.a0, d.a1), d.a2), d.a3);
    XTimeOfPair(c.a0, c.a1, d.a0, d.a1);
    XTimeOfPair(c.a1, c.a2, d.a1, d.a2);
    XTimeOfPair(c.a2, c.a3, d.a2, d.a3);
    XTimeOfPair(c.a3, c.a0, d.a3, d.a0);
    MixedByteAdds(c.a0, t, XTime(Add(c.a0, c.a1)), d.a0, u, XTime(Add(d.a0, d.a1)));
    MixedByteAdds(c.a1, t, XTime(Add(c.a1, c.a2)), d.a1, u, XTime(Add(d.a1, d.a2)));
    MixedByteAdds(c.a2, t, XTime(Add(c.a2, c.a3)), d.a2, u, XTime(Add(d.a2, d.a3)));
    MixedByteAdds(c.a3, t, XTime(Add(c.a3, c.a0)), d.a3, u, XTime(Add(d.a3, d.a0)));
  }

  // One byte of InvMix.
  lemma InvByteAdds(x: Byte, a: Byte, b: Byte, c: Byte, y: Byte, z: Byte,
                    x': Byte, a': Byte, b': Byte, c': Byte, y': Byte, z': Byte)
    ensures Add(Add(x, x'), Sum5(Add(a, a'), Add(b, b'), Add(c, c'), Add(y, y'), Add(z, z')))
            == Add(Add(x, Sum5(a, b, c, y, z)), Add(x', Sum5(a', b', c', y', z')))
  {
    hide Add;
    Sum4Adds(a, b, c, y, a', b', c', y');
    AddPairs(Add(Add(Add(a, b), c), y), Add(Add(Add(a', b'), c'), y'), z, z');
    AddPairs(x, x', Sum5(a, b, c, y, z), Sum5(a', b', c', y', z'));
  }

  lemma InvMixIsLinear(c: Column, d: Column)
    ensures InvMix(AddColumns(c, d)) == AddColumns(InvMix(c), InvMix(d))
  {
    hide Add, XTime, Sum5;
    XTimeOfPair(c.a0, c.a1, d.a0, d.a1);
    XTimeOfPair(c.a1, c.a2, d.a1, d.a2);
    XTimeOfPair(c.a2, c.a3, d.a2, d.a3);
    XTimeOfPair(c.a3, c.a0, d.a3, d.a0);
    var x0, x1 := XTime(Add(c.a0, c.a1)), XTime(Add(c.a1, c.a2));
    var x2, x3 := XTime(Add(c.a2, c.a3)), XTime(Add(c.a3, c.a0));
    var y0, y1 := XTime(Add(d.a0, d.a1)), XTime(Add(d.a1, d.a2));
    var y2, y3 := XTime(Add(d.a2, d.a3)), XTime(Add(d.a3, d.a0));
    XTimeOfPair(x0, x1, y0, y1);
    XTimeOfPair(x1, x2, y1, y2);
    var x4, x5, y4, y5 := XTime(Add(x0, x1)), XTime(Add(x1, x2)), XTime(Add(y0, y1)), XTime(Add(y1, y2));
    XTimeOfPair(x4, x5, y4, y5);
    var x6, y6 := XTime(Add(x4, x5)), XTime(Add(y4, y5));
    InvByteAdds(x0, c.a1, c.a2, c.a3, x4, x6, y0, d.a1, d.a2, d.a3, y4, y6);
    InvByteAdds(x1, c.a0, c.a2, c.a3, x5, x6, y1, d.a0, d.a2, d.a3, y5, y6);
    InvByteAdds(x2, c.a0, c.a1, c.a3, x4, x6, y2, d.a0, d.a1, d.a3, y4, y6);
    InvByteAdds(x3, c.a0, c.a1, c.a2, x5, x6, y3, d.a0, d.a1, d.a2, y5, y6);
  }

  // ---------------------------------------------------------------- and inverse to each other

  lemma UnmixFirst(a: Byte)
    ensures InvMix(Mix(Column(a, 0, 0, 0))) == Column(a, 0, 0, 0)
  {
  }

  lemma UnmixSecond(a: Byte)
    ensures InvMix(Mix(Column(0, a, 0, 0))) == Column(0, a, 0, 0)
  {
  }

  lemma UnmixThird(a: Byte)
    ensures InvMix(Mix(Column(0, 0, a, 0))) == Column(0, 0, a, 0)
  {
  }

  lemma UnmixFourth(a: Byte)
    ensures InvMix(Mix(Column(0, 0, 0, a))) == Column(0, 0, 0, a)
  {
  }

  // A column is the sum of its bytes in their places.
  lemma Decomposed(c: Column)
    ensures c == AddColumns(AddColumns(Column(c.a0, 0, 0, 0), Column(0, c.a1, 0, 0)),
                            AddColumns(Column(0, 0, c.a2, 0), Column(0, 0, 0, c.a3)))
  {
    hide Add;
    AddZero(0);
    AddZero(c.a0);
    AddZero(c.a1);
    AddZero(c.a2);
    AddZero(c.a3);
  }

  lemma UnmixAdds(c: Column, d: Column)
    requires InvMix(Mix(c)) == c && InvMix(Mix(d)) == d
    ensures InvMix(Mix(AddColumns(c, d))) == AddColumns(c, d)
  {
    hide Mix, InvMix, AddColumns;
    MixIsLinear(c, d);
    InvMixIsLinear(Mix(c), Mix(d));
  }

  lemma Unmix(c: Column)
    ensures InvMix(Mix(c)) == c
  {
    hide Mix, InvMix, AddColumns;
    Decomposed(c);
    UnmixFirst(c.a0);
    UnmixSecond(c.a1);
    UnmixThird(c.a2);
    UnmixFourth(c.a3);
    UnmixAdds(Column(c.a0, 0, 0, 0), Column(0, c.a1, 0, 0));
    UnmixAdds(Column(0, 0, c.a2, 0), Column(0, 0, 0, c.a3));
    UnmixAdds(AddColumns(Column(c.a0, 0, 0, 0), Column(0, c.a1, 0, 0)),
              AddColumns(Column(0, 0, c.a2, 0), Column(0, 0, 0, c.a3)));
  }

  // ---------------------------------------------------------------- four bytes in a word

  function Bytes(w: Word): Column {
    Column((w >> 24) as Byte, ((w >> 16) & 0xFF) as Byte, ((w >> 8) & 0xFF) as Byte, (w & 0xFF) as Byte)
  }

  function Pack(c: Column): Word {
    ((c.a0 as Word) << 24) | ((c.a1 as Word) << 16) | ((c.a2 as Word) << 8) | (c.a3 as Word)
  }

  function Xor(v: Word, w: Word): Word { v ^ w }

  function Rot1(w: Word): Word { (w << 24) | (w >> 8) }

  function Rot2(w: Word): Word { (w << 16) | (w >> 16) }

  function Rot3(w: Word): Word { (w << 8) | (w >> 24) }

  // mul2: the four bytes doubled at once
  function Mul2(x: Word): Word {
    var t := x & 0x80808080;
    ((x + x) & 0xFEFEFEFE) ^ ((t - (t >> 7)) & 0x1B1B1B1B)
  }

  // inv_mix_col
  function InvMixWord(x: Word): Word {
    var f2 := Mul2(x);
    var f4 := Mul2(f2);
    var f8 := Mul2(f4);
    var f9 := Xor(x, f8);
    Xor(Xor(Xor(Xor(Xor(f2, f4), f8), Rot3(Xor(f2, f9))), Rot2(Xor(f4, f9))), Rot1(f9))
  }

  lemma BytesPack(c: Column)
    ensures Bytes(Pack(c)) == c
  {
  }

  lemma BytesXor(v: Word, w: Word)
    ensures Bytes(Xor(v, w)) == AddColumns(Bytes(v), Bytes(w))
  {
  }

  lemma BytesRot(w: Word)
    ensures
      var c := Bytes(w);
      && Bytes(Rot1(w)) == Column(c.a3, c.a0, c.a1, c.a2)
      && Bytes(Rot2(w)) == Column(c.a2, c.a3, c.a0, c.a1)
      && Bytes(Rot3(w)) == Column(c.a1, c.a2, c.a3, c.a0)
  {
  }

  function Doubled(c: Column): Column { Column(XTime(c.a0), XTime(c.a1), XTime(c.a2), XTime(c.a3)) }

  lemma BytesMul2(w: Word)
    ensures Bytes(Mul2(w)) == Doubled(Bytes(w))
  {
  }

  // ---------------------------------------------------------------- inv_mix_col is InvMixColumns

  function Turn1(c: Column): Column { Column(c.a3, c.a0, c.a1, c.a2) }

  function Turn2(c: Column): Column { Column(c.a2, c.a3, c.a0, c.a1) }

  function Turn3(c: Column): Column { Column(c.a1, c.a2, c.a3, c.a0) }

  // What inv_mix_col does, byte by byte.
  function PackedInvMix(x: Column): Column {
    var f2 := Doubled(x);
    var f4 := Doubled(f2);
    var f8 := Doubled(f4);
    var f9 := AddColumns(x, f8);
    AddColumns(AddColumns(AddColumns(AddColumns(AddColumns(f2, f4), f8), Turn3(AddColumns(f2, f9))),
                          Turn2(AddColumns(f4, f9))), Turn1(f9))
  }

  lemma BytesInvMixWord(w: Word)
    ensures Bytes(InvMixWord(w)) == PackedInvMix(Bytes(w))
  {
    hide Bytes, Mul2, Xor, Rot1, Rot2, Rot3, AddColumns, Doubled;
    var f2 := Mul2(w);
    var f4 := Mul2(f2);
    var f8 := Mul2(f4);
    var f9 := Xor(w, f8);
    BytesMul2(w);
    BytesMul2(f2);
    BytesMul2(f4);
    BytesXor(w, f8);
    BytesXor(f2, f4);
    BytesXor(Xor(f2, f4), f8);
    BytesXor(f2, f9);
    BytesXor(f4, f9);
    BytesRot(Xor(f2, f9));
    BytesRot(Xor(f4, f9));
    BytesRot(f9);
    var s := Xor(Xor(f2, f4), f8);
    BytesXor(s, Rot3(Xor(f2, f9)));
    BytesXor(Xor(s, Rot3(Xor(f2, f9))), Rot2(Xor(f4, f9)));
    BytesXor(Xor(Xor(s, Rot3(Xor(f2, f9))), Rot2(Xor(f4, f9))), Rot1(f9));
  }

  lemma ColumnPairs(a: Column, b: Column, c: Column, d: Column)
    ensures AddColumns(AddColumns(a, b), AddColumns(c, d)) == AddColumns(AddColumns(a, c), AddColumns(b, d))
  {
    hide Add;
    AddPairs(a.a0, b.a0, c.a0, d.a0);
    AddPairs(a.a1, b.a1, c.a1, d.a1);
    AddPairs(a.a2, b.a2, c.a2, d.a2);
    AddPairs(a.a3, b.a3, c.a3, d.a3);
  }

  lemma DoubledAdds(c: Column, d: Column)
    ensures Doubled(AddColumns(c, d)) == AddColumns(Doubled(c), Doubled(d))
  {
    hide Add, XTime;
    XTimeAdds(c.a0, d.a0);
    XTimeAdds(c.a1, d.a1);
    XTimeAdds(c.a2, d.a2);
    XTimeAdds(c.a3, d.a3);
  }

  lemma TurnsAdd(c: Column, d: Column)
    ensures Turn1(AddColumns(c, d)) == AddColumns(Turn1(c), Turn1(d))
    ensures Turn2(AddColumns(c, d)) == AddColumns(Turn2(c), Turn2(d))
    ensures Turn3(AddColumns(c, d)) == AddColumns(Turn3(c), Turn3(d))
  {
    hide Add;
  }

  lemma PackedInvMixIsLinear(x: Column, y: Column)
    ensures PackedInvMix(AddColumns(x, y)) == AddColumns(PackedInvMix(x), PackedInvMix(y))
  {
    hide AddColumns, Doubled, Turn1, Turn2, Turn3;
    var f2, g2 := Doubled(x), Doubled(y);
    var f4, g4 := Doubled(f2), Doubled(g2);
    var f8, g8 := Doubled(f4), Doubled(g4);
    var f9, g9 := AddColumns(x, f8), AddColumns(y, g8);
    DoubledAdds(x, y);
    DoubledAdds(f2, g2);
    DoubledAdds(f4, g4);
    ColumnPairs(x, y, f8, g8);
    ColumnPairs(f2, g2, f4, g4);
    ColumnPairs(AddColumns(f2, f4), AddColumns(g2, g4), f8, g8);
    ColumnPairs(f2, g2, f9, g9);
    ColumnPairs(f4, g4, f9, g9);
    TurnsAdd(AddColumns(f2, f9), AddColumns(g2, g9));
    TurnsAdd(AddColumns(f4, f9), AddColumns(g4, g9));
    TurnsAdd(f9, g9);
    var s, s' := AddColumns(AddColumns(f2, f4), f8), AddColumns(AddColumns(g2, g4), g8);
    var u, u' := Turn3(AddColumns(f2, f9)), Turn3(AddColumns(g2, g9));
    var v, v' := Turn2(AddColumns(f4, f9)), Turn2(AddColumns(g4, g9));
    ColumnPairs(s, s', u, u');
    ColumnPairs(AddColumns(s, u), AddColumns(s', u'), v, v');
    ColumnPairs(AddColumns(AddColumns(s, u), v), AddColumns(AddColumns(s', u'), v'), Turn1(f9), Turn1(g9));
  }

  lemma PackedFirst(a: Byte)
    ensures PackedInvMix(Column(a, 0, 0, 0)) == InvMix(Column(a, 0, 0, 0))
  {
  }

  lemma PackedSecond(a: Byte)
    ensures PackedInvMix(Column(0, a, 0, 0)) == InvMix(Column(0, a, 0, 0))
  {
  }

  lemma PackedThird(a: Byte)
    ensures PackedInvMix(Column(0, 0, a, 0)) == InvMix(Column(0, 0, a, 0))
  {
  }

  lemma PackedFourth(a: Byte)
    ensures PackedInvMix(Column(0, 0, 0, a)) == InvMix(Column(0, 0, 0, a))
  {
  }

  lemma PackedAdds(c: Column, d: Column)
    requires PackedInvMix(c) == InvMix(c) && PackedInvMix(d) == InvMix(d)
    ensures PackedInvMix(AddColumns(c, d)) == InvMix(AddColumns(c, d))
  {
    hide PackedInvMix, InvMix, AddColumns;
    PackedInvMixIsLinear(c, d);
    InvMixIsLinear(c, d);
  }

  // inv_mix_col on a word is the inverse MixColumns on its bytes.
  lemma InvMixWordIsInvMix(w: Word)
    ensures Bytes(InvMixWord(w)) == InvMix(Bytes(w))
  {
    hide PackedInvMix, InvMix, AddColumns, Bytes, InvMixWord;
    BytesInvMixWord(w);
    var c := Bytes(w);
    Decomposed(c);
    PackedFirst(c.a0);
    PackedSecond(c.a1);
    PackedThird(c.a2);
    PackedFourth(c.a3);
    PackedAdds(Column(c.a0, 0, 0, 0), Column(0, c.a1, 0, 0));
    PackedAdds(Column(0, 0, c.a2, 0), Column(0, 0, 0, c.a3));
    PackedAdds(AddColumns(Column(c.a0, 0, 0, 0), Column(0, c.a1, 0, 0)),
               AddColumns(Column(0, 0, c.a2, 0), Column(0, 0, 0, c.a3)));
  }

  // ---------------------------------------------------------------- rounds

  // Four columns.
  type State = s: seq<Column> | |s| == 4 witness seq(4, _ => Column(0, 0, 0, 0))

  // SubBytes and ShiftRows together, and their inverses.
  function Shifted(s: State, r: nat): Column
    requires r < 4
  {
    Column(Sbox(s[r].a0), Sbox(s[(r + 1) % 4].a1), Sbox(s[(r + 2) % 4].a2), Sbox(s[(r + 3) % 4].a3))
  }

  function InvShifted(s: State, r: nat): Column
    requires r < 4
  {
    Column(InvSbox(s[r].a0), InvSbox(s[(r + 3) % 4].a1), InvSbox(s[(r + 2) % 4].a2), InvSbox(s[(r + 1) % 4].a3))
  }

  function SubShift(s: State): State { seq(4, r requires 0 <= r < 4 => Shifted(s, r)) }

  function InvSubShift(s: State): State { seq(4, r requires 0 <= r < 4 => InvShifted(s, r)) }

  function MixAll(s: State): State { seq(4, r requires 0 <= r < 4 => Mix(s[r])) }

  function InvMixAll(s: State): State { seq(4, r requires 0 <= r < 4 => InvMix(s[r])) }

  function AddState(s: State, t: State): State { seq(4, r requires 0 <= r < 4 => AddColumns(s[r], t[r])) }

  function RoundKey(ks: seq<Word>, i: nat): State
    requires 4 * i + 4 <= |ks|
  {
    [Bytes(ks[4 * i]), Bytes(ks[4 * i + 1]), Bytes(ks[4 * i + 2]), Bytes(ks[4 * i + 3])]
  }

  // AES_encrypt after the first key addition and n rounds; the last round does not mix.
  function Encrypted(ks: seq<Word>, rounds: nat, n: nat, s: State): State
    requires n <= rounds && 4 * (rounds + 1) <= |ks|
  {
    if n == 0 then AddState(s, RoundKey(ks, 0))
    else
      var t := SubShift(Encrypted(ks, rounds, n - 1, s));
      AddState(if n < rounds then MixAll(t) else t, RoundKey(ks, n))
  }

  // AES_decrypt likewise, with the keys in the opposite order.
  function Decrypted(ks: seq<Word>, rounds: nat, n: nat, s: State): State
    requires n <= rounds && 4 * (rounds + 1) <= |ks|
  {
    if n == 0 then AddState(s, RoundKey(ks, rounds))
    else
      var t := InvSubShift(Decrypted(ks, rounds, n - 1, s));
      AddState(if n < rounds then InvMixAll(t) else t, RoundKey(ks, rounds - n))
  }

  // AES_convert_key
  function Converted(ks: seq<Word>, rounds: nat): (r: seq<Word>)
    ensures |r| == |ks|
  {
    seq(|ks|, i requires 0 <= i < |ks| => if 4 <= i < 4 * rounds then InvMixWord(ks[i]) else ks[i])
  }

  // ---------------------------------------------------------------- decryption undoes encryption

  // Row k of the state is turned by k one way and then the other.
  lemma TurnedBack(r: nat)
    requires r < 4
    ensures ((r + 3) % 4 + 1) % 4 == r && ((r + 2) % 4 + 2) % 4 == r && ((r + 1) % 4 + 3) % 4 == r
  {
  }

  lemma SubShiftInvertsColumn(s: State, r: nat)
    requires r < 4
    ensures InvShifted(SubShift(s), r) == s[r]
  {
    hide Sbox, InvSbox;
    TurnedBack(r);
    SboxInverts(s[r].a0);
    SboxInverts(s[r].a1);
    SboxInverts(s[r].a2);
    SboxInverts(s[r].a3);
    var r1, r2, r3 := (r + 1) % 4, (r + 2) % 4, (r + 3) % 4;
    assert SubShift(s)[r] == Shifted(s, r) && SubShift(s)[r1] == Shifted(s, r1);
    assert SubShift(s)[r2] == Shifted(s, r2) && SubShift(s)[r3] == Shifted(s, r3);
  }

  lemma SubShiftInverts(s: State)
    ensures InvSubShift(SubShift(s)) == s
  {
    hide InvShifted, SubShift;
    forall r | 0 <= r < 4 ensures InvShifted(SubShift(s), r) == s[r] { SubShiftInvertsColumn(s, r); }
  }

  lemma AddTwice(s: State, k: State)
    ensures AddState(AddState(s, k), k) == s
  {
    forall r | 0 <= r < 4 ensures AddState(AddState(s, k), k)[r] == s[r] { AddColumnTwice(s[r], k[r]); }
  }

  lemma AddColumnTwice(c: Column, d: Column)
    ensures AddColumns(AddColumns(c, d), d) == c
  {
    hide Add;
    AddUndoes(c.a0, d.a0);
    AddUndoes(c.a1, d.a1);
    AddUndoes(c.a2, d.a2);
    AddUndoes(c.a3, d.a3);
  }

  lemma AddUndoes(x: Byte, y: Byte)
    ensures Add(Add(x, y), y) == x
  {
  }

  // Unmixing a state to which a key has been added, and adding the converted key.
  lemma UnmixWithKey(s: State, k: State)
    ensures AddState(InvMixAll(AddState(MixAll(s), k)), InvMixAll(k)) == s
  {
    hide Mix, InvMix, AddColumns;
    var t := AddState(InvMixAll(AddState(MixAll(s), k)), InvMixAll(k));
    forall r | 0 <= r < 4 ensures t[r] == s[r] {
      InvMixIsLinear(Mix(s[r]), k[r]);
      Unmix(s[r]);
      AddColumnTwice(s[r], InvMix(k[r]));
    }
  }

  lemma ConvertedKey(ks: seq<Word>, rounds: nat, i: nat)
    requires 4 * (rounds + 1) <= |ks| && i <= rounds
    ensures RoundKey(Converted(ks, rounds), i)
            == if 0 < i < rounds then InvMixAll(RoundKey(ks, i)) else RoundKey(ks, i)
  {
    hide InvMixWord, InvMix, Bytes;
    InvMixWordIsInvMix(ks[4 * i]);
    InvMixWordIsInvMix(ks[4 * i + 1]);
    InvMixWordIsInvMix(ks[4 * i + 2]);
    InvMixWordIsInvMix(ks[4 * i + 3]);
  }

  // After n rounds of decryption, the state is what the substitution of the round before gave in
  // encryption.
  lemma {:induction false} DecryptedSoFar(ks: seq<Word>, rounds: nat, n: nat, s: State)
    requires n < rounds && 4 * (rounds + 1) <= |ks|
    ensures Decrypted(Converted(ks, rounds), rounds, n, Encrypted(ks, rounds, rounds, s))
            == SubShift(Encrypted(ks, rounds, rounds - 1 - n, s))
  {
    hide AddState, SubShift, InvSubShift, MixAll, InvMixAll, RoundKey, Converted;
    var keys := Converted(ks, rounds);
    if n == 0 {
      ConvertedKey(ks, rounds, rounds);
      AddTwice(SubShift(Encrypted(ks, rounds, rounds - 1, s)), RoundKey(ks, rounds));
    } else {
      DecryptedSoFar(ks, rounds, n - 1, s);
      var before := Encrypted(ks, rounds, rounds - n, s);
      SubShiftInverts(before);
      ConvertedKey(ks, rounds, rounds - n);
      UnmixWithKey(SubShift(Encrypted(ks, rounds, rounds - n - 1, s)), RoundKey(ks, rounds - n));
    }
  }

  // With the converted key schedule, decryption gives back every block, whatever the schedule and
  // the number of rounds.
  lemma DecryptUndoesEncrypt(ks: seq<Word>, rounds: nat, s: State)
    requires 4 * (rounds + 1) <= |ks|
    ensures Decrypted(Converted(ks, rounds), rounds, rounds, Encrypted(ks, rounds, rounds, s)) == s
  {
    hide AddState, SubShift, InvSubShift, MixAll, InvMixAll, RoundKey, Converted;
    ConvertedKey(ks, rounds, 0);
    AddTwice(s, RoundKey(ks, 0));
    if rounds > 0 {
      DecryptedSoFar(ks, rounds, rounds - 1, s);
      SubShiftInverts(Encrypted(ks, rounds, 0, s));
    }
  }

  // ---------------------------------------------------------------- the code itself

  function Columns(words: seq<Word>): (s: State)
    requires |words| == 4
  {
    [Bytes(words[0]), Bytes(words[1]), Bytes(words[2]), Bytes(words[3])]
  }

  // Byte i of a word, from the most significant one.
  function ByteAt(w: Word, i: nat): Byte
    requires i < 4
  {
    if i == 0 then (w >> 24) as Byte
    else if i == 1 then ((w >> 16) & 0xFF) as Byte
    else if i == 2 then ((w >> 8) & 0xFF) as Byte
    else (w & 0xFF) as Byte
  }

  lemma BytesAt(w: Word)
    ensures Bytes(w) == Column(ByteAt(w, 0), ByteAt(w, 1), ByteAt(w, 2), ByteAt(w, 3))
  {
  }

  lemma RowAt(data: seq<Word>, r: nat)
    requires |data| == 4 && r < 4
    ensures Columns(data)[r] == Column(ByteAt(data[r], 0), ByteAt(data[r], 1), ByteAt(data[r], 2), ByteAt(data[r], 3))
  {
    hide Bytes, ByteAt;
    BytesAt(data[r]);
  }

  lemma LoadedForEncrypt(data: seq<Word>, row: nat)
    requires |data| == 4 && row < 4
    ensures Shifted(Columns(data), row)
      == Column(Sbox(ByteAt(data[row % 4], 0)), Sbox(ByteAt(data[(row + 1) % 4], 1)),
                Sbox(ByteAt(data[(row + 2) % 4], 2)), Sbox(ByteAt(data[(row + 3) % 4], 3)))
  {
    hide Bytes, ByteAt, Sbox, Columns;
    RowAt(data, row % 4);
    RowAt(data, (row + 1) % 4);
    RowAt(data, (row + 2) % 4);
    RowAt(data, (row + 3) % 4);
  }

  lemma LoadedForDecrypt(data: seq<Word>, row: nat)
    requires |data| == 4 && row < 4
    ensures InvShifted(Columns(data), row)
      == Column(InvSbox(ByteAt(data[row % 4], 0)), InvSbox(ByteAt(data[(row + 3) % 4], 1)),
                InvSbox(ByteAt(data[(row + 2) % 4], 2)), InvSbox(ByteAt(data[(row + 1) % 4], 3)))
  {
    hide Bytes, ByteAt, InvSbox, Columns;
    RowAt(data, row % 4);
    RowAt(data, (row + 1) % 4);
    RowAt(data, (row + 2) % 4);
    RowAt(data, (row + 3) % 4);
  }

  // One word of a round of AES_encrypt, before the key is added.
  method EncryptRow(data: seq<Word>, row: nat, mix: bool) returns (w: Word)
    requires |data| == 4 && row < 4
    ensures Bytes(w) == if mix then Mix(Shifted(Columns(data), row)) else Shifted(Columns(data), row)
  {
    hide Bytes, Pack, ByteAt, Sbox, XTime, Add, Shifted, Columns;
    LoadedForEncrypt(data, row);
    var a0 := Sbox(ByteAt(data[row % 4], 0));
    var a1 := Sbox(ByteAt(data[(row + 1) % 4], 1));
    var a2 := Sbox(ByteAt(data[(row + 2) % 4], 2));
    var a3 := Sbox(ByteAt(data[(row + 3) % 4], 3));
    if mix {
      var tmp1 := Add(Add(Add(a0, a1), a2), a3);
      var oldA0 := a0;
      a0 := Add(a0, Add(tmp1, XTime(Add(a0, a1))));
      a1 := Add(a1, Add(tmp1, XTime(Add(a1, a2))));
      a2 := Add(a2, Add(tmp1, XTime(Add(a2, a3))));
      a3 := Add(a3, Add(tmp1, XTime(Add(a3, oldA0))));
    }
    w := Pack(Column(a0, a1, a2, a3));
    BytesPack(Column(a0, a1, a2, a3));
  }

  // One word of a round of AES_decrypt, before the key is added.
  method DecryptRow(data: seq<Word>, row: nat, mix: bool) returns (w: Word)
    requires |data| == 4 && row < 4
    ensures Bytes(w) == if mix then InvMix(InvShifted(Columns(data), row)) else InvShifted(Columns(data), row)
  {
    hide Bytes, Pack, ByteAt, InvSbox, XTime, Add, Sum5, InvShifted, Columns;
    LoadedForDecrypt(data, row);
    var a0 := InvSbox(ByteAt(data[row % 4], 0));
    var a1 := InvSbox(ByteAt(data[(row + 3) % 4], 1));
    var a2 := InvSbox(ByteAt(data[(row + 2) % 4], 2));
    var a3 := InvSbox(ByteAt(data[(row + 1) % 4], 3));
    var c := Column(a0, a1, a2, a3);
    if mix {
      var xt0 := XTime(Add(a0, a1));
      var xt1 := XTime(Add(a1, a2));
      var xt2 := XTime(Add(a2, a3));
      var xt3 := XTime(Add(a3, a0));
      var xt4 := XTime(Add(xt0, xt1));
      var xt5 := XTime(Add(xt1, xt2));
      var xt6 := XTime(Add(xt4, xt5));
      xt0 := Add(xt0, Sum5(a1, a2, a3, xt4, xt6));
      xt1 := Add(xt1, Sum5(a0, a2, a3, xt5, xt6));
      xt2 := Add(xt2, Sum5(a0, a1, a3, xt4, xt6));
      xt3 := Add(xt3, Sum5(a0, a1, a2, xt5, xt6));
      c := Column(xt0, xt1, xt2, xt3);
    }
    w := Pack(c);
    BytesPack(c);
  }

  // AES_CTX
  class Context {
    const rounds: nat
    const ks: array<Word>
    const iv: array<Byte>

    ghost predicate Valid()
      reads this
    {
      4 * (rounds + 1) <= ks.Length && iv.Length == 16
    }

    constructor (rounds: nat, ks: array<Word>, iv: array<Byte>)
      requires 4 * (rounds + 1) <= ks.Length && iv.Length == 16
      ensures Valid() && this.rounds == rounds && this.ks == ks && this.iv == iv
    {
      this.rounds, this.ks, this.iv := rounds, ks, iv;
    }

    // AES_convert_key
    method ConvertKey()
      requires Valid()
      modifies ks
      ensures ks[..] == Converted(old(ks[..]), rounds)
    {
      hide InvMixWord;
      ghost var was := ks[..];
      var k := 4;
      var i := rounds * 4;
      while i > 4
        invariant 4 <= k && (rounds >= 1 ==> i + k == 4 * rounds + 4 && i >= 4) && (rounds == 0 ==> i == 0 && k == 4)
        invariant forall j :: 0 <= j < ks.Length ==> ks[j] == if 4 <= j < k then InvMixWord(was[j]) else was[j]
      {
        ks[k] := InvMixWord(ks[k]);
        k := k + 1;
        i := i - 1;
      }
    }

    // A key addition, with a round key that starts at word k.
    method AddRoundKey(data: array<Word>, tmp: seq<Word>, k: nat)
      requires Valid() && data.Length == 4 == |tmp| && data != ks && k % 4 == 0 && k + 4 <= ks.Length
      modifies data
      ensures Columns(data[..]) == AddState(Columns(tmp), RoundKey(ks[..], k / 4))
    {
      hide Bytes, Xor, AddColumns;
      var row := 0;
      while row < 4
        invariant 0 <= row <= 4
        invariant forall r :: 0 <= r < row ==> data[r] == Xor(tmp[r], ks[k + r])
      {
        data[row] := Xor(tmp[row], ks[k + row]);
        row := row + 1;
      }
      assert 4 * (k / 4) == k;
      BytesXor(tmp[0], ks[k]);
      BytesXor(tmp[1], ks[k + 1]);
      BytesXor(tmp[2], ks[k + 2]);
      BytesXor(tmp[3], ks[k + 3]);
    }

    // AES_encrypt
    method Encrypt(data: array<Word>)
      requires Valid() && data.Length == 4 && data != ks
      modifies data
      ensures Columns(data[..]) == Encrypted(ks[..], rounds, rounds, Columns(old(data[..])))
    {
      hide Bytes, Shifted, Mix, AddState, RoundKey;
      ghost var s := Columns(data[..]);
      AddRoundKey(data, data[..], 0);
      var round := 0;
      while round < rounds
        invariant 0 <= round <= rounds && Columns(data[..]) == Encrypted(ks[..], rounds, round, s)
      {
        var w0 := EncryptRow(data[..], 0, round < rounds - 1);
        var w1 := EncryptRow(data[..], 1, round < rounds - 1);
        var w2 := EncryptRow(data[..], 2, round < rounds - 1);
        var w3 := EncryptRow(data[..], 3, round < rounds - 1);
        var tmp := [w0, w1, w2, w3];
        assert Columns(tmp)
            == if round < rounds - 1 then MixAll(SubShift(Columns(data[..]))) else SubShift(Columns(data[..]));
        AddRoundKey(data, tmp, 4 * (round + 1));
        round := round + 1;
      }
    }

    // AES_decrypt
    method Decrypt(data: array<Word>)
      requires Valid() && data.Length == 4 && data != ks
      modifies data
      ensures Columns(data[..]) == Decrypted(ks[..], rounds, rounds, Columns(old(data[..])))
    {
      hide Bytes, InvShifted, InvMix, AddState, RoundKey;
      ghost var s := Columns(data[..]);
      AddRoundKey(data, data[..], 4 * rounds);
      var round := 0;
      while round < rounds
        invariant 0 <= round <= rounds && Columns(data[..]) == Decrypted(ks[..], rounds, round, s)
      {
        var w3 := DecryptRow(data[..], 3, round < rounds - 1);
        var w2 := DecryptRow(data[..], 2, round < rounds - 1);
        var w1 := DecryptRow(data[..], 1, round < rounds - 1);
        var w0 := DecryptRow(data[..], 0, round < rounds - 1);
        var tmp := [w0, w1, w2, w3];
        assert Columns(tmp)
            == if round < rounds - 1 then InvMixAll(InvSubShift(Columns(data[..]))) else InvSubShift(Columns(data[..]));
        AddRoundKey(data, tmp, 4 * (rounds - 1 - round));
        round := round + 1;
      }
    }
  }
}
