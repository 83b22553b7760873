// The cipher of FIPS 197, written as the standard has it: bytes are polynomials over GF(2) modulo
// x^8 + x^4 + x^3 + x + 1, the S-box is an inverse and an affine map, and a state is four rows of four
// bytes. Proved is that the tables and shortcuts of module Aes come to the same.
module Fips197 {
  import opened Aes
  import opened Cbc

  // ---------------------------------------------------------------- the field

  // Section 4.2: twice a polynomial, less 0x11B if it has degree eight.
  function Double(x: Byte): Byte {
    var p := (x as bv16) << 1;
    ((if p & 0x100 != 0 then p ^ 0x11B else p) & 0xFF) as Byte
  }

  // One more coefficient of the second factor, from the highest on.
  function TimesStep(acc: Byte, x: Byte, y: Byte, bit: Byte): Byte {
    if y & bit != 0 then Double(acc) ^ x else Double(acc)
  }

  // The product of two polynomials.
  function Times(x: Byte, y: Byte): Byte {
    var p7 := TimesStep(0, x, y, 0x80);
    var p6 := TimesStep(p7, x, y, 0x40);
    var p5 := TimesStep(p6, x, y, 0x20);
    var p4 := TimesStep(p5, x, y, 0x10);
    var p3 := TimesStep(p4, x, y, 0x08);
    var p2 := TimesStep(p3, x, y, 0x04);
    var p1 := TimesStep(p2, x, y, 0x02);
    TimesStep(p1, x, y, 0x01)
  }

  // ---------------------------------------------------------------- the S-box

  // Section 5.1.1: zero is its own inverse.
  predicate AreInverse(x: Byte, y: Byte) { if x == 0 then y == 0 else Times(x, y) == 1 }

  function RotateLeft(x: Byte, k: nat): Byte
    requires 0 < k < 8
  {
    (x << k) | (x >> (8 - k))
  }

  // Bit i is the sum of bits i, i + 4, i + 5, i + 6 and i + 7, counted round, and of bit i of 0x63.
  function Affine(x: Byte): Byte {
    x ^ RotateLeft(x, 4) ^ RotateLeft(x, 3) ^ RotateLeft(x, 2) ^ RotateLeft(x, 1) ^ 0x63
  }

  // The inverse of the affine map.
  function Unaffine(x: Byte): Byte {
    RotateLeft(x, 1) ^ RotateLeft(x, 3) ^ RotateLeft(x, 6) ^ 0x05
  }

  lemma AffineOfUnaffine(x: Byte)
    ensures Affine(Unaffine(x)) == x
  {
  }

  // The inverse of x, read off the table.
  function Inverse(x: Byte): Byte { Unaffine(Sbox(x)) }

  predicate SboxFits(x: Byte) { AreInverse(x, Inverse(x)) }

  lemma SboxFits00(x: Byte)
    requires x & 0xF8 == 0x00
    ensures SboxFits(x)
  {
  }

  lemma SboxFits08(x: Byte)
    requires x & 0xF8 == 0x08
    ensures SboxFits(x)
  {
  }

  lemma SboxFits10(x: Byte)
    requires x & 0xF8 == 0x10
    ensures SboxFits(x)
  {
  }

  lemma SboxFits18(x: Byte)
    requires x & 0xF8 == 0x18
    ensures SboxFits(x)
  {
  }

  lemma SboxFits20(x: Byte)
    requires x & 0xF8 == 0x20
    ensures SboxFits(x)
  {
  }

  lemma SboxFits28(x: Byte)
    requires x & 0xF8 == 0x28
    ensures SboxFits(x)
  {
  }

  lemma SboxFits30(x: Byte)
    requires x & 0xF8 == 0x30
    ensures SboxFits(x)
  {
  }

  lemma SboxFits38(x: Byte)
    requires x & 0xF8 == 0x38
    ensures SboxFits(x)
  {
  }

  lemma SboxFits40(x: Byte)
    requires x & 0xF8 == 0x40
    ensures SboxFits(x)
  {
  }

  lemma SboxFits48(x: Byte)
    requires x & 0xF8 == 0x48
    ensures SboxFits(x)
  {
  }

  lemma SboxFits50(x: Byte)
    requires x & 0xF8 == 0x50
    ensures SboxFits(x)
  {
  }

  lemma SboxFits58(x: Byte)
    requires x & 0xF8 == 0x58
    ensures SboxFits(x)
  {
  }

  lemma SboxFits60(x: Byte)
    requires x & 0xF8 == 0x60
    ensures SboxFits(x)
  {
  }

  lemma SboxFits68(x: Byte)
    requires x & 0xF8 == 0x68
    ensures SboxFits(x)
  {
  }

  lemma SboxFits70(x: Byte)
    requires x & 0xF8 == 0x70
    ensures SboxFits(x)
  {
  }

  lemma SboxFits78(x: Byte)
    requires x & 0xF8 == 0x78
    ensures SboxFits(x)
  {
  }

  lemma SboxFits80(x: Byte)
    requires x & 0xF8 == 0x80
    ensures SboxFits(x)
  {
  }

  lemma SboxFits88(x: Byte)
    requires x & 0xF8 == 0x88
    ensures SboxFits(x)
  {
  }

  lemma SboxFits90(x: Byte)
    requires x & 0xF8 == 0x90
    ensures SboxFits(x)
  {
  }

  lemma SboxFits98(x: Byte)
    requires x & 0xF8 == 0x98
    ensures SboxFits(x)
  {
  }

  lemma SboxFitsA0(x: Byte)
    requires x & 0xF8 == 0xA0
    ensures SboxFits(x)
  {
  }

  lemma SboxFitsA8(x: Byte)
    requires x & 0xF8 == 0xA8
    ensures SboxFits(x)
  {
  }

  lemma SboxFitsB0(x: Byte)
    requires x & 0xF8 == 0xB0
    ensures SboxFits(x)
  {
  }

  lemma SboxFitsB8(x: Byte)
    requires x & 0xF8 == 0xB8
    ensures SboxFits(x)
  {
  }

  lemma SboxFitsC0(x: Byte)
    requires x & 0xF8 == 0xC0
    ensures SboxFits(x)
  {
  }

  lemma SboxFitsC8(x: Byte)
    requires x & 0xF8 == 0xC8
    ensures SboxFits(x)
  {
  }

  lemma SboxFitsD0(x: Byte)
    requires x & 0xF8 == 0xD0
    ensures SboxFits(x)
  {
  }

  lemma SboxFitsD8(x: Byte)
    requires x & 0xF8 == 0xD8
    ensures SboxFits(x)
  {
  }

  lemma SboxFitsE0(x: Byte)
    requires x & 0xF8 == 0xE0
    ensures SboxFits(x)
  {
  }

  lemma SboxFitsE8(x: Byte)
    requires x & 0xF8 == 0xE8
    ensures SboxFits(x)
  {
  }

  lemma SboxFitsF0(x: Byte)
    requires x & 0xF8 == 0xF0
    ensures SboxFits(x)
  {
  }

  lemma SboxFitsF8(x: Byte)
    requires x & 0xF8 == 0xF8
    ensures SboxFits(x)
  {
  }

  lemma SboxFitsLow(x: Byte)
    requires x < 0x80
    ensures SboxFits(x)
  {
    var row := x & 0xF8;
    hide SboxFits;
    if row == 0x00 { SboxFits00(x); }
    else if row == 0x08 { SboxFits08(x); }
    else if row == 0x10 { SboxFits10(x); }
    else if row == 0x18 { SboxFits18(x); }
    else if row == 0x20 { SboxFits20(x); }
    else if row == 0x28 { SboxFits28(x); }
    else if row == 0x30 { SboxFits30(x); }
    else if row == 0x38 { SboxFits38(x); }
    else if row == 0x40 { SboxFits40(x); }
    else if row == 0x48 { SboxFits48(x); }
    else if row == 0x50 { SboxFits50(x); }
    else if row == 0x58 { SboxFits58(x); }
    else if row == 0x60 { SboxFits60(x); }
    else if row == 0x68 { SboxFits68(x); }
    else if row == 0x70 { SboxFits70(x); }
    else { SboxFits78(x); }
  }

  lemma SboxFitsHigh(x: Byte)
    requires x >= 0x80
    ensures SboxFits(x)
  {
    var row := x & 0xF8;
    hide SboxFits;
    if row == 0x80 { SboxFits80(x); }
    else if row == 0x88 { SboxFits88(x); }
    else if row == 0x90 { SboxFits90(x); }
    else if row == 0x98 { SboxFits98(x); }
    else if row == 0xA0 { SboxFitsA0(x); }
    else if row == 0xA8 { SboxFitsA8(x); }
    else if row == 0xB0 { SboxFitsB0(x); }
    else if row == 0xB8 { SboxFitsB8(x); }
    else if row == 0xC0 { SboxFitsC0(x); }
    else if row == 0xC8 { SboxFitsC8(x); }
    else if row == 0xD0 { SboxFitsD0(x); }
    else if row == 0xD8 { SboxFitsD8(x); }
    else if row == 0xE0 { SboxFitsE0(x); }
    else if row == 0xE8 { SboxFitsE8(x); }
    else if row == 0xF0 { SboxFitsF0(x); }
    else { SboxFitsF8(x); }
  }

  // Section 5.1.1: the S-box is the affine map after the inverse.
  lemma SboxIsAffineInverse(x: Byte)
    ensures AreInverse(x, Inverse(x)) && Sbox(x) == Affine(Inverse(x))
  {
    hide Sbox, Affine, Unaffine, AreInverse;
    if x < 0x80 { SboxFitsLow(x); } else { SboxFitsHigh(x); }
    AffineOfUnaffine(Sbox(x));
  }

  // No byte but zero times a byte is zero, so that there is only one inverse.
  lemma TimesAdds(x: Byte, y: Byte, z: Byte)
    ensures Times(x, Add(y, z)) == Add(Times(x, y), Times(x, z))
  {
    hide Double;
    StepAdds(0, 0, x, y, z, 0x80);
    var a7, b7 := TimesStep(0, x, y, 0x80), TimesStep(0, x, z, 0x80);
    StepAdds(a7, b7, x, y, z, 0x40);
    var a6, b6 := TimesStep(a7, x, y, 0x40), TimesStep(b7, x, z, 0x40);
    StepAdds(a6, b6, x, y, z, 0x20);
    var a5, b5 := TimesStep(a6, x, y, 0x20), TimesStep(b6, x, z, 0x20);
    StepAdds(a5, b5, x, y, z, 0x10);
    var a4, b4 := TimesStep(a5, x, y, 0x10), TimesStep(b5, x, z, 0x10);
    StepAdds(a4, b4, x, y, z, 0x08);
    var a3, b3 := TimesStep(a4, x, y, 0x08), TimesStep(b4, x, z, 0x08);
    StepAdds(a3, b3, x, y, z, 0x04);
    var a2, b2 := TimesStep(a3, x, y, 0x04), TimesStep(b3, x, z, 0x04);
    StepAdds(a2, b2, x, y, z, 0x02);
    StepAdds(TimesStep(a2, x, y, 0x02), TimesStep(b2, x, z, 0x02), x, y, z, 0x01);
    AddZero(0);
    hide TimesStep, Add;
  }

  predicate OneBit(bit: Byte) {
    bit == 0x80 || bit == 0x40 || bit == 0x20 || bit == 0x10 || bit == 0x08 || bit == 0x04 || bit == 0x02 || bit == 0x01
  }

  // AES_xtime doubles.
  lemma XTimeIsDouble(x: Byte)
    ensures XTime(x) == Double(x)
  {
  }

  lemma DoubleAdds(a: Byte, b: Byte)
    ensures Double(Add(a, b)) == Add(Double(a), Double(b))
  {
    hide XTime, Double, Add;
    XTimeIsDouble(a);
    XTimeIsDouble(b);
    XTimeIsDouble(Add(a, b));
    XTimeAdds(a, b);
  }

  lemma BitAdds(y: Byte, z: Byte, bit: Byte)
    requires OneBit(bit)
    ensures Add(y, z) & bit != 0 <==> (y & bit != 0) != (z & bit != 0)
  {
  }

  lemma StepAdds(a: Byte, b: Byte, x: Byte, y: Byte, z: Byte, bit: Byte)
    requires OneBit(bit)
    ensures TimesStep(Add(a, b), x, Add(y, z), bit) == Add(TimesStep(a, x, y, bit), TimesStep(b, x, z, bit))
  {
    DoubleAdds(a, b);
    BitAdds(y, z, bit);
    StepIsSum(Add(a, b), x, Add(y, z), bit);
    StepIsSum(a, x, y, bit);
    StepIsSum(b, x, z, bit);
    hide TimesStep, Double, OneBit, Add;
    SumWith(Double(a), Double(b), x);
  }

  lemma StepIsSum(acc: Byte, x: Byte, y: Byte, bit: Byte)
    ensures TimesStep(acc, x, y, bit) == if y & bit != 0 then Add(Double(acc), x) else Double(acc)
  {
  }

  lemma SumWith(a: Byte, b: Byte, x: Byte)
    ensures Add(Add(a, x), b) == Add(Add(a, b), x) && Add(a, Add(b, x)) == Add(Add(a, b), x)
    ensures Add(Add(a, x), Add(b, x)) == Add(a, b)
  {
    hide Add;
    AddAssociates(a, x, b);
    AddCommutes(x, b);
    AddAssociates(a, b, x);
    AddPairs(a, x, b, x);
    AddSame(x);
    AddZero(Add(a, b));
  }

  lemma NoZeroDivisors0(x: Byte, y: Byte)
    requires x != 0 && x >> 5 == 0 && Times(x, y) == 0
    ensures y == 0
  {
  }

  lemma NoZeroDivisors1(x: Byte, y: Byte)
    requires x != 0 && x >> 5 == 1 && Times(x, y) == 0
    ensures y == 0
  {
  }

  lemma NoZeroDivisors2(x: Byte, y: Byte)
    requires x != 0 && x >> 5 == 2 && Times(x, y) == 0
    ensures y == 0
  {
  }

  lemma NoZeroDivisors3(x: Byte, y: Byte)
    requires x != 0 && x >> 5 == 3 && Times(x, y) == 0
    ensures y == 0
  {
  }

  lemma NoZeroDivisors4(x: Byte, y: Byte)
    requires x != 0 && x >> 5 == 4 && Times(x, y) == 0
    ensures y == 0
  {
  }

  lemma NoZeroDivisors5(x: Byte, y: Byte)
    requires x != 0 && x >> 5 == 5 && Times(x, y) == 0
    ensures y == 0
  {
  }

  lemma NoZeroDivisors6(x: Byte, y: Byte)
    requires x != 0 && x >> 5 == 6 && Times(x, y) == 0
    ensures y == 0
  {
  }

  lemma NoZeroDivisors7(x: Byte, y: Byte)
    requires x != 0 && x >> 5 == 7 && Times(x, y) == 0
    ensures y == 0
  {
  }

  lemma NoZeroDivisors(x: Byte, y: Byte)
    requires x != 0 && Times(x, y) == 0
    ensures y == 0
  {
    var k := x >> 5;
    hide Times;
    if k == 0 { NoZeroDivisors0(x, y); }
    else if k == 1 { NoZeroDivisors1(x, y); }
    else if k == 2 { NoZeroDivisors2(x, y); }
    else if k == 3 { NoZeroDivisors3(x, y); }
    else if k == 4 { NoZeroDivisors4(x, y); }
    else if k == 5 { NoZeroDivisors5(x, y); }
    else if k == 6 { NoZeroDivisors6(x, y); }
    else { NoZeroDivisors7(x, y); }
  }

  lemma InverseIsUnique(x: Byte, y: Byte, z: Byte)
    requires AreInverse(x, y) && AreInverse(x, z)
    ensures y == z
  {
    hide Times;
    if x != 0 {
      TimesAdds(x, y, z);
      AddSame(1);
      NoZeroDivisors(x, Add(y, z));
      AddIsZero(y, z);
    }
  }

  lemma AddSame(x: Byte)
    ensures Add(x, x) == 0
  {
  }

  lemma AddIsZero(y: Byte, z: Byte)
    requires Add(y, z) == 0
    ensures y == z
  {
  }

  // The multiplicative inverse in the field.
  ghost function FieldInverse(x: Byte): (y: Byte)
    ensures AreInverse(x, y)
  {
    SboxIsAffineInverse(x);
    var y :| AreInverse(x, y);
    y
  }

  ghost function SubByte(x: Byte): Byte { Affine(FieldInverse(x)) }

  lemma SboxIsSubByte(x: Byte)
    ensures Sbox(x) == SubByte(x)
  {
    hide Sbox, Affine, AreInverse;
    SboxIsAffineInverse(x);
    InverseIsUnique(x, Inverse(x), FieldInverse(x));
  }

  // ---------------------------------------------------------------- the four transformations

  // Section 3.4: byte (r, c) of a state is byte r + 4c of a block.
  type Block16 = b: seq<Byte> | |b| == 16 witness seq(16, _ => 0)

  ghost function SubBytes(b: Block16): Block16 { seq(16, i requires 0 <= i < 16 => SubByte(b[i])) }

  // Section 5.1.2: row r moves r columns to the left.
  function ShiftRows(b: Block16): Block16 {
    seq(16, i requires 0 <= i < 16 => b[i % 4 + 4 * ((i / 4 + i % 4) % 4)])
  }

  // Section 5.1.3: each column is multiplied by the matrix with the rows (2 3 1 1), (1 2 3 1), (1 1 2 3)
  // and (3 1 1 2).
  function MixColumns(b: Block16): Block16 { seq(16, i requires 0 <= i < 16 => MixedByte(b, i % 4, i / 4)) }

  function MixedByte(b: Block16, r: nat, c: nat): Byte
    requires r < 4 && c < 4
  {
    Add(Add(Add(Times(2, b[r + 4 * c]), Times(3, b[(r + 1) % 4 + 4 * c])), b[(r + 2) % 4 + 4 * c]),
        b[(r + 3) % 4 + 4 * c])
  }

  // Section 5.1.4: column c is added to word 4 * round + c of the key schedule.
  function AddRoundKey(b: Block16, w: seq<Word>, round: nat): Block16
    requires 4 * round + 4 <= |w|
  {
    seq(16, i requires 0 <= i < 16 => Add(b[i], ByteAt(w[4 * round + i / 4], i % 4)))
  }

  // Figure 5, after n rounds.
  ghost function Rounds(b: Block16, w: seq<Word>, nr: nat, n: nat): Block16
    requires n <= nr && 4 * (nr + 1) <= |w|
  {
    if n == 0 then AddRoundKey(b, w, 0)
    else
      var t := ShiftRows(SubBytes(Rounds(b, w, nr, n - 1)));
      AddRoundKey(if n < nr then MixColumns(t) else t, w, n)
  }

  ghost function Cipher(b: Block16, w: seq<Word>, nr: nat): Block16
    requires 4 * (nr + 1) <= |w|
  {
    Rounds(b, w, nr, nr)
  }

  // ---------------------------------------------------------------- the code does the same

  function Entry(c: Column, r: nat): Byte
    requires r < 4
  {
    if r == 0 then c.a0 else if r == 1 then c.a1 else if r == 2 then c.a2 else c.a3
  }

  lemma UnblockAt(s: State, i: nat)
    requires i < 16
    ensures Unblock(s)[i] == Entry(s[i / 4], i % 4)
  {
    var r := i % 4;
    if i < 4 { assert i / 4 == 0 && i == r; ColumnAt(s, 0, r); }
    else if i < 8 { assert i / 4 == 1 && i == 4 + r; ColumnAt(s, 1, r); }
    else if i < 12 { assert i / 4 == 2 && i == 8 + r; ColumnAt(s, 2, r); }
    else { assert i / 4 == 3 && i == 12 + r; ColumnAt(s, 3, r); }
    hide Unblock, Entry;
  }

  // The bytes of each column, in order.
  lemma UnblockIs(s: State)
    ensures Unblock(s)[..4] == Four(s[0]) && Unblock(s)[4..8] == Four(s[1])
    ensures Unblock(s)[8..12] == Four(s[2]) && Unblock(s)[12..] == Four(s[3])
  {
  }

  function Four(c: Column): (b: seq<Byte>)
    ensures |b| == 4
    ensures forall r :: 0 <= r < 4 ==> b[r] == Entry(c, r)
  {
    [c.a0, c.a1, c.a2, c.a3]
  }

  lemma ColumnAt(s: State, c: nat, r: nat)
    requires c < 4 && r < 4
    ensures Unblock(s)[4 * c + r] == Entry(s[c], r)
  {
    hide Unblock, Entry, Four;
    UnblockIs(s);
    var b := Unblock(s);
    assert b[..4][r] == b[r] && b[4..8][r] == b[4 + r] && b[8..12][r] == b[8 + r] && b[12..][r] == b[12 + r];
    assert c == 0 || c == 1 || c == 2 || c == 3;
  }

  lemma EntryAt(s: State, r: nat, c: nat)
    requires r < 4 && c < 4
    ensures Unblock(s)[r + 4 * c] == Entry(s[c], r)
  {
    hide Unblock, Entry;
    ColumnAt(s, c, r);
  }

  lemma EntryShifted(s: State, c: nat, r: nat)
    requires c < 4 && r < 4
    ensures Entry(Shifted(s, c), r) == Sbox(Entry(s[(c + r) % 4], r))
  {
    hide Sbox;
  }

  lemma SubShiftIs(s: State)
    ensures Unblock(SubShift(s)) == ShiftRows(SubBytes(Unblock(s)))
  {
    hide Sbox, SubByte, Unblock, Shifted, Entry;
    var b := Unblock(s);
    forall i | 0 <= i < 16 ensures Unblock(SubShift(s))[i] == ShiftRows(SubBytes(b))[i] {
      var r, c := i % 4, i / 4;
      UnblockAt(SubShift(s), i);
      EntryShifted(s, c, r);
      EntryAt(s, r, (c + r) % 4);
      SboxIsSubByte(Entry(s[(c + r) % 4], r));
    }
  }

  lemma SmallTimes(x: Byte)
    ensures Times(2, x) == XTime(x) && Times(3, x) == Add(XTime(x), x)
  {
    TimesTwo(x);
    TimesThree(x);
  }

  lemma TimesTwo(x: Byte)
    ensures Times(2, x) == XTime(x)
  {
    if x & 0x80 != 0 {} else {}
  }

  lemma TimesThree(x: Byte)
    ensures Times(3, x) == Add(XTime(x), x)
  {
    if x & 0x80 != 0 {} else {}
  }

  // One byte of Mix, with p and q the doubles of the first two of its column.
  lemma MixOne(a: Byte, b: Byte, c: Byte, d: Byte, p: Byte, q: Byte)
    ensures Add(a, Add(Add(Add(Add(a, b), c), d), Add(p, q))) == Add(Add(Add(p, Add(q, b)), c), d)
  {
    hide Add;
    var cd, pq := Add(c, d), Add(p, q);
    AddAssociates(Add(a, b), c, d);
    AddAssociates(a, Add(Add(a, b), cd), pq);
    AddAssociates(a, Add(a, b), cd);
    AddAssociates(a, a, b);
    AddSame(a);
    AddZero(b);
    AddCommutes(Add(b, cd), pq);
    AddAssociates(pq, b, cd);
    AddAssociates(p, q, b);
    AddAssociates(Add(p, Add(q, b)), c, d);
  }

  lemma SumTurns(a: Byte, b: Byte, c: Byte, d: Byte)
    ensures Add(Add(Add(a, b), c), d) == Add(Add(Add(b, c), d), a)
  {
    hide Add;
    AddAssociates(a, b, c);
    AddAssociates(a, Add(b, c), d);
    AddCommutes(a, Add(Add(b, c), d));
  }

  function Weighted(a: Byte, b: Byte, c: Byte, d: Byte): Byte { Add(Add(Add(Times(2, a), Times(3, b)), c), d) }

  lemma MixFirst(a: Byte, b: Byte, c: Byte, d: Byte)
    ensures Add(a, Add(Add(Add(Add(a, b), c), d), XTime(Add(a, b)))) == Weighted(a, b, c, d)
  {
    hide Add, XTime, Times;
    XTimeAdds(a, b);
    SmallTimes(a);
    SmallTimes(b);
    MixOne(a, b, c, d, XTime(a), XTime(b));
  }

  lemma MixIsMatrix(x: Column, r: nat)
    requires r < 4
    ensures Entry(Mix(x), r)
         == Weighted(Entry(x, r), Entry(x, (r + 1) % 4), Entry(x, (r + 2) % 4), Entry(x, (r + 3) % 4))
  {
    hide Add, XTime, Weighted;
    var a, b, c, d := x.a0, x.a1, x.a2, x.a3;
    MixFirst(a, b, c, d);
    MixFirst(b, c, d, a);
    MixFirst(c, d, a, b);
    MixFirst(d, a, b, c);
    SumTurns(a, b, c, d);
    SumTurns(b, c, d, a);
    SumTurns(c, d, a, b);
  }

  lemma MixAllIs(s: State)
    ensures Unblock(MixAll(s)) == MixColumns(Unblock(s))
  {
    hide Mix, Unblock, Entry, Times, Add;
    forall i | 0 <= i < 16 ensures Unblock(MixAll(s))[i] == MixedByte(Unblock(s), i % 4, i / 4) {
      var r, c := i % 4, i / 4;
      UnblockAt(MixAll(s), i);
      MixIsMatrix(s[c], r);
      EntryAt(s, r, c);
      EntryAt(s, (r + 1) % 4, c);
      EntryAt(s, (r + 2) % 4, c);
      EntryAt(s, (r + 3) % 4, c);
    }
  }

  lemma EntryAdds(x: Column, y: Column, r: nat)
    requires r < 4
    ensures Entry(AddColumns(x, y), r) == Add(Entry(x, r), Entry(y, r))
  {
    hide Add;
  }

  lemma EntryOfBytes(w: Word, r: nat)
    requires r < 4
    ensures Entry(Bytes(w), r) == ByteAt(w, r)
  {
    hide Bytes, ByteAt;
    BytesAt(w);
  }

  lemma AddStateIs(s: State, ks: seq<Word>, round: nat)
    requires 4 * round + 4 <= |ks|
    ensures Unblock(AddState(s, RoundKey(ks, round))) == AddRoundKey(Unblock(s), ks, round)
  {
    hide Add, Unblock, Entry, Bytes, ByteAt, AddColumns;
    var t := AddState(s, RoundKey(ks, round));
    forall i | 0 <= i < 16 ensures Unblock(t)[i] == Add(Unblock(s)[i], ByteAt(ks[4 * round + i / 4], i % 4)) {
      UnblockAt(t, i);
      UnblockAt(s, i);
      EntryAdds(s[i / 4], RoundKey(ks, round)[i / 4], i % 4);
      EntryOfBytes(ks[4 * round + i / 4], i % 4);
    }
  }

  // AES_encrypt computes the cipher of the standard, for every schedule and number of rounds.
  lemma {:induction false} EncryptIsCipher(ks: seq<Word>, rounds: nat, n: nat, s: State)
    requires n <= rounds && 4 * (rounds + 1) <= |ks|
    ensures Unblock(Encrypted(ks, rounds, n, s)) == Rounds(Unblock(s), ks, rounds, n)
  {
    hide AddState, RoundKey, SubShift, MixAll, Unblock, ShiftRows, SubBytes, MixColumns, AddRoundKey;
    if n == 0 {
      AddStateIs(s, ks, 0);
    } else {
      EncryptIsCipher(ks, rounds, n - 1, s);
      var before := Encrypted(ks, rounds, n - 1, s);
      SubShiftIs(before);
      MixAllIs(SubShift(before));
      AddStateIs(if n < rounds then MixAll(SubShift(before)) else SubShift(before), ks, n);
    }
  }

  // ---------------------------------------------------------------- chaining

  // Section 6.2 of NIST SP 800-38A: a block of ciphertext is the cipher of the block of plaintext added to
  // the block of ciphertext before it, or to the initialisation vector.
  lemma {:induction false} BlockIsChained(ks: seq<Word>, rounds: nat, iv: State, plain: seq<State>, i: nat)
    requires 4 * (rounds + 1) <= |ks| && i < |plain|
    ensures
      var cipher := EncryptBlocks(ks, rounds, iv, plain);
      cipher[i] == Encipher(ks, rounds, AddState(plain[i], if i == 0 then iv else cipher[i - 1]))
    decreases i
  {
    hide AddState, Encipher;
    if i > 0 { BlockIsChained(ks, rounds, Encipher(ks, rounds, AddState(plain[0], iv)), plain[1..], i - 1); }
  }

  function AddBlocks(a: Block16, b: Block16): Block16 { seq(16, i requires 0 <= i < 16 => Add(a[i], b[i])) }

  lemma AddBlocksIs(s: State, t: State)
    ensures Unblock(AddState(s, t)) == AddBlocks(Unblock(s), Unblock(t))
  {
    hide Add, Unblock, Entry, AddColumns;
    forall i | 0 <= i < 16 ensures Unblock(AddState(s, t))[i] == Add(Unblock(s)[i], Unblock(t)[i]) {
      UnblockAt(AddState(s, t), i);
      UnblockAt(s, i);
      UnblockAt(t, i);
      EntryAdds(s[i / 4], t[i / 4], i % 4);
    }
  }

  lemma {:induction false} BlocksAt(m: seq<Byte>, i: nat)
    requires 16 * i + 16 <= |m|
    ensures i < |Blocks(m)| && Unblock(Blocks(m)[i]) == m[16 * i..16 * i + 16]
  {
    hide Block, Unblock;
    if i == 0 {
      UnblockOfBlock(m[..16]);
    } else {
      BlocksAt(m[16..], i - 1);
      assert m[16..][16 * (i - 1)..16 * (i - 1) + 16] == m[16 * i..16 * i + 16];
    }
  }

  lemma {:induction false} UnblocksAt(s: seq<State>, i: nat)
    requires i < |s|
    ensures Unblocks(s)[16 * i..16 * i + 16] == Unblock(s[i])
  {
    hide Unblock;
    if i == 0 {
      assert Unblocks(s)[..16] == Unblock(s[0]);
    } else {
      UnblocksAt(s[1..], i - 1);
      assert Unblocks(s)[16..] == Unblocks(s[1..]);
      assert Unblocks(s)[16 * i..16 * i + 16] == Unblocks(s)[16..][16 * (i - 1)..16 * (i - 1) + 16];
    }
  }

  function Piece(m: seq<Byte>, i: nat): Block16
    requires 16 * i + 16 <= |m|
  {
    m[16 * i..16 * i + 16]
  }

  // The i-th block of an encrypted message, byte for byte.
  lemma MessageIsChained(ks: seq<Word>, rounds: nat, iv: Block16, m: seq<Byte>, i: nat)
    requires 4 * (rounds + 1) <= |ks| && 16 * i + 16 <= |m|
    ensures |EncryptMessage(ks, rounds, iv, m)| == 16 * (|m| / 16) >= 16 * i + 16
    ensures
      var c := EncryptMessage(ks, rounds, iv, m);
      Piece(c, i) == Cipher(AddBlocks(Piece(m, i), if i == 0 then iv else Piece(c, i - 1)), ks, rounds)
  {
    hide Encrypted, EncryptBlocks, Blocks, Unblocks, Block, Unblock, AddState, AddBlocks, Rounds, Encipher, Cipher;
    var plain := Blocks(m);
    var cipher := EncryptBlocks(ks, rounds, Block(iv), plain);
    BlocksAt(m, i);
    BlockIsChained(ks, rounds, Block(iv), plain, i);
    UnblocksAt(cipher, i);
    if i > 0 { UnblocksAt(cipher, i - 1); } else { UnblockOfBlock(iv); }
    EncipherSum(ks, rounds, plain[i], if i == 0 then Block(iv) else cipher[i - 1]);
  }

  lemma EncipherSum(ks: seq<Word>, rounds: nat, plain: State, before: State)
    requires 4 * (rounds + 1) <= |ks|
    ensures Unblock(Encipher(ks, rounds, AddState(plain, before)))
         == Cipher(AddBlocks(Unblock(plain), Unblock(before)), ks, rounds)
  {
    hide Encrypted, Unblock, AddState, AddBlocks, Rounds;
    AddBlocksIs(plain, before);
    EncryptIsCipher(ks, rounds, rounds, AddState(plain, before));
  }
}
