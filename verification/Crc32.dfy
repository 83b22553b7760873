// crc32.c: a table-driven CRC over bytes, most significant bit first, started with all ones and not
// complemented at the end. Proved is that it is division of the message, bit by bit, by the
// generator polynomial of section 3.2.9 of IEEE 802.3, and what that promises of messages.
module Crc32 {
  type Byte = bv8
  type Word = bv32

  // ---------------------------------------------------------------- one bit at a time

  // The register moves up by one; the generator polynomial 0x04C11DB7 is taken off if a one falls out.
  function Step(r: Word): Word { if r & 0x80000000 != 0 then (r << 1) ^ 0x04C11DB7 else r << 1 }

  // A message bit is added where the next bit falls out.
  function Feed(r: Word, bit: bool): Word { Step(if bit then r ^ 0x80000000 else r) }

  function Bit(b: Byte, i: nat): bool
    requires i < 8
  {
    (b >> (7 - i)) & 1 != 0
  }

  // The bits of a byte from the i-th on, and the bytes of a message.
  function FeedByte(r: Word, b: Byte): Word {
    Feed(Feed(Feed(Feed(Feed(Feed(Feed(Feed(r, Bit(b, 0)), Bit(b, 1)), Bit(b, 2)), Bit(b, 3)),
      Bit(b, 4)), Bit(b, 5)), Bit(b, 6)), Bit(b, 7))
  }

  function FeedAll(r: Word, message: seq<Byte>): Word {
    if message == [] then r else FeedByte(FeedAll(r, message[..|message| - 1]), message[|message| - 1])
  }

  const START: Word := 0xFFFFFFFF

  function Crc(message: seq<Byte>): Word { FeedAll(START, message) }

  // ---------------------------------------------------------------- the table

  // Entry i of sixteen.
  function Pick(i: Byte, v0: Word, v1: Word, v2: Word, v3: Word, v4: Word, v5: Word, v6: Word, v7: Word,
                v8: Word, v9: Word, v10: Word, v11: Word, v12: Word, v13: Word, v14: Word, v15: Word): Word
  {
    if i < 8 then
      if i < 4 then if i < 2 then if i < 1 then v0 else v1 else if i < 3 then v2 else v3
      else if i < 6 then if i < 5 then v4 else v5 else if i < 7 then v6 else v7
    else
      if i < 12 then if i < 10 then if i < 9 then v8 else v9 else if i < 11 then v10 else v11
      else if i < 14 then if i < 13 then v12 else v13 else if i < 15 then v14 else v15
  }

  function Table(i: Byte): Word {
    var lo := i & 0x0F;
    Pick(i >> 4,
      Pick(lo, 0x00000000, 0x04C11DB7, 0x09823B6E, 0x0D4326D9,
               0x130476DC, 0x17C56B6B, 0x1A864DB2, 0x1E475005,
               0x2608EDB8, 0x22C9F00F, 0x2F8AD6D6, 0x2B4BCB61,
               0x350C9B64, 0x31CD86D3, 0x3C8EA00A, 0x384FBDBD),
      Pick(lo, 0x4C11DB70, 0x48D0C6C7, 0x4593E01E, 0x4152FDA9,
               0x5F15ADAC, 0x5BD4B01B, 0x569796C2, 0x52568B75,
               0x6A1936C8, 0x6ED82B7F, 0x639B0DA6, 0x675A1011,
               0x791D4014, 0x7DDC5DA3, 0x709F7B7A, 0x745E66CD),
      Pick(lo, 0x9823B6E0, 0x9CE2AB57, 0x91A18D8E, 0x95609039,
               0x8B27C03C, 0x8FE6DD8B, 0x82A5FB52, 0x8664E6E5,
               0xBE2B5B58, 0xBAEA46EF, 0xB7A96036, 0xB3687D81,
               0xAD2F2D84, 0xA9EE3033, 0xA4AD16EA, 0xA06C0B5D),
      Pick(lo, 0xD4326D90, 0xD0F37027, 0xDDB056FE, 0xD9714B49,
               0xC7361B4C, 0xC3F706FB, 0xCEB42022, 0xCA753D95,
               0xF23A8028, 0xF6FB9D9F, 0xFBB8BB46, 0xFF79A6F1,
               0xE13EF6F4, 0xE5FFEB43, 0xE8BCCD9A, 0xEC7DD02D),
      Pick(lo, 0x34867077, 0x30476DC0, 0x3D044B19, 0x39C556AE,
               0x278206AB, 0x23431B1C, 0x2E003DC5, 0x2AC12072,
               0x128E9DCF, 0x164F8078, 0x1B0CA6A1, 0x1FCDBB16,
               0x018AEB13, 0x054BF6A4, 0x0808D07D, 0x0CC9CDCA),
      Pick(lo, 0x7897AB07, 0x7C56B6B0, 0x71159069, 0x75D48DDE,
               0x6B93DDDB, 0x6F52C06C, 0x6211E6B5, 0x66D0FB02,
               0x5E9F46BF, 0x5A5E5B08, 0x571D7DD1, 0x53DC6066,
               0x4D9B3063, 0x495A2DD4, 0x44190B0D, 0x40D816BA),
      Pick(lo, 0xACA5C697, 0xA864DB20, 0xA527FDF9, 0xA1E6E04E,
               0xBFA1B04B, 0xBB60ADFC, 0xB6238B25, 0xB2E29692,
               0x8AAD2B2F, 0x8E6C3698, 0x832F1041, 0x87EE0DF6,
               0x99A95DF3, 0x9D684044, 0x902B669D, 0x94EA7B2A),
      Pick(lo, 0xE0B41DE7, 0xE4750050, 0xE9362689, 0xEDF73B3E,
               0xF3B06B3B, 0xF771768C, 0xFA325055, 0xFEF34DE2,
               0xC6BCF05F, 0xC27DEDE8, 0xCF3ECB31, 0xCBFFD686,
               0xD5B88683, 0xD1799B34, 0xDC3ABDED, 0xD8FBA05A),
      Pick(lo, 0x690CE0EE, 0x6DCDFD59, 0x608EDB80, 0x644FC637,
               0x7A089632, 0x7EC98B85, 0x738AAD5C, 0x774BB0EB,
               0x4F040D56, 0x4BC510E1, 0x46863638, 0x42472B8F,
               0x5C007B8A, 0x58C1663D, 0x558240E4, 0x51435D53),
      Pick(lo, 0x251D3B9E, 0x21DC2629, 0x2C9F00F0, 0x285E1D47,
               0x36194D42, 0x32D850F5, 0x3F9B762C, 0x3B5A6B9B,
               0x0315D626, 0x07D4CB91, 0x0A97ED48, 0x0E56F0FF,
               0x1011A0FA, 0x14D0BD4D, 0x19939B94, 0x1D528623),
      Pick(lo, 0xF12F560E, 0xF5EE4BB9, 0xF8AD6D60, 0xFC6C70D7,
               0xE22B20D2, 0xE6EA3D65, 0xEBA91BBC, 0xEF68060B,
               0xD727BBB6, 0xD3E6A601, 0xDEA580D8, 0xDA649D6F,
               0xC423CD6A, 0xC0E2D0DD, 0xCDA1F604, 0xC960EBB3),
      Pick(lo, 0xBD3E8D7E, 0xB9FF90C9, 0xB4BCB610, 0xB07DABA7,
               0xAE3AFBA2, 0xAAFBE615, 0xA7B8C0CC, 0xA379DD7B,
               0x9B3660C6, 0x9FF77D71, 0x92B45BA8, 0x9675461F,
               0x8832161A, 0x8CF30BAD, 0x81B02D74, 0x857130C3),
      Pick(lo, 0x5D8A9099, 0x594B8D2E, 0x5408ABF7, 0x50C9B640,
               0x4E8EE645, 0x4A4FFBF2, 0x470CDD2B, 0x43CDC09C,
               0x7B827D21, 0x7F436096, 0x7200464F, 0x76C15BF8,
               0x68860BFD, 0x6C47164A, 0x61043093, 0x65C52D24),
      Pick(lo, 0x119B4BE9, 0x155A565E, 0x18197087, 0x1CD86D30,
               0x029F3D35, 0x065E2082, 0x0B1D065B, 0x0FDC1BEC,
               0x3793A651, 0x3352BBE6, 0x3E119D3F, 0x3AD08088,
               0x2497D08D, 0x2056CD3A, 0x2D15EBE3, 0x29D4F654),
      Pick(lo, 0xC5A92679, 0xC1683BCE, 0xCC2B1D17, 0xC8EA00A0,
               0xD6AD50A5, 0xD26C4D12, 0xDF2F6BCB, 0xDBEE767C,
               0xE3A1CBC1, 0xE760D676, 0xEA23F0AF, 0xEEE2ED18,
               0xF0A5BD1D, 0xF464A0AA, 0xF9278673, 0xFDE69BC4),
      Pick(lo, 0x89B8FD09, 0x8D79E0BE, 0x803AC667, 0x84FBDBD0,
               0x9ABC8BD5, 0x9E7D9662, 0x933EB0BB, 0x97FFAD0C,
               0xAFB010B1, 0xAB710D06, 0xA6322BDF, 0xA2F33668,
               0xBCB4666D, 0xB8757BDA, 0xB5365D03, 0xB1F740B4))
  }

  // ---------------------------------------------------------------- eight steps at once

  function Steps8(r: Word): Word { Step(Step(Step(Step(Step(Step(Step(Step(r)))))))) }

  function Xor(x: Word, y: Word): Word { x ^ y }

  predicate Top(x: Word) { x & 0x80000000 != 0 }

  function Up(x: Word): Word { x << 1 }

  function Reduced(x: Word): Word { x ^ 0x04C11DB7 }

  lemma StepParts(x: Word)
    ensures Step(x) == if Top(x) then Reduced(Up(x)) else Up(x)
  {
  }

  lemma TopAdds(x: Word, y: Word)
    ensures Top(Xor(x, y)) <==> (Top(x) <==> !Top(y))
  {
    if Top(x) { if Top(y) {} else {} } else { if Top(y) {} else {} }
  }

  lemma UpAdds(x: Word, y: Word)
    ensures Up(Xor(x, y)) == Xor(Up(x), Up(y))
  {
  }

  lemma ReducedBoth(x: Word, y: Word)
    ensures Xor(Reduced(x), Reduced(y)) == Xor(x, y)
  {
  }

  lemma ReducedLeft(x: Word, y: Word)
    ensures Xor(Reduced(x), y) == Reduced(Xor(x, y))
  {
  }

  lemma ReducedRight(x: Word, y: Word)
    ensures Xor(x, Reduced(y)) == Reduced(Xor(x, y))
  {
  }

  lemma StepIsLinear(x: Word, y: Word)
    ensures Step(Xor(x, y)) == Xor(Step(x), Step(y))
  {
    hide Step, Xor, Top, Up, Reduced;
    StepParts(x);
    StepParts(y);
    StepParts(Xor(x, y));
    TopAdds(x, y);
    UpAdds(x, y);
    ReducedBoth(Up(x), Up(y));
    ReducedLeft(Up(x), Up(y));
    ReducedRight(Up(x), Up(y));
  }

  lemma Steps8IsLinear(x: Word, y: Word)
    ensures Steps8(Xor(x, y)) == Xor(Steps8(x), Steps8(y))
  {
    hide Step, Xor;
    var x1, y1 := Step(x), Step(y);
    var x2, y2 := Step(x1), Step(y1);
    var x3, y3 := Step(x2), Step(y2);
    var x4, y4 := Step(x3), Step(y3);
    var x5, y5 := Step(x4), Step(y4);
    var x6, y6 := Step(x5), Step(y5);
    var x7, y7 := Step(x6), Step(y6);
    StepIsLinear(x, y);
    StepIsLinear(x1, y1);
    StepIsLinear(x2, y2);
    StepIsLinear(x3, y3);
    StepIsLinear(x4, y4);
    StepIsLinear(x5, y5);
    StepIsLinear(x6, y6);
    StepIsLinear(x7, y7);
  }

  // Nothing falls out of the lower three bytes in eight steps.
  lemma LowerBytesShift(r: Word)
    ensures Steps8(r & 0x00FFFFFF) == r << 8
  {
  }

  // ---------------------------------------------------------------- every entry of the table

  // A word if a bit of i is set.
  function On(i: Byte, bit: Byte, w: Word): Word { if i & bit != 0 then w else 0 }

  function Four(a: Word, b: Word, c: Word, d: Word): Word { Xor(Xor(a, b), Xor(c, d)) }

  // The sum of the words for the bits of i.
  function Combined(i: Byte, w0: Word, w1: Word, w2: Word, w3: Word, w4: Word, w5: Word, w6: Word, w7: Word): Word {
    Xor(Four(On(i, 0x01, w0), On(i, 0x02, w1), On(i, 0x04, w2), On(i, 0x08, w3)),
        Four(On(i, 0x10, w4), On(i, 0x20, w5), On(i, 0x40, w6), On(i, 0x80, w7)))
  }

  lemma ByteIsCombined(i: Byte)
    ensures (i as Word) << 24 == Combined(i, 0x01000000, 0x02000000, 0x04000000, 0x08000000,
                                          0x10000000, 0x20000000, 0x40000000, 0x80000000)
  {
  }

  lemma Steps8Zero()
    ensures Steps8(0) == 0
  {
  }

  lemma Steps8On(i: Byte, bit: Byte, w: Word)
    ensures Steps8(On(i, bit, w)) == On(i, bit, Steps8(w))
  {
    hide Steps8;
    Steps8Zero();
  }

  lemma Steps8Four(a: Word, b: Word, c: Word, d: Word)
    ensures Steps8(Four(a, b, c, d)) == Four(Steps8(a), Steps8(b), Steps8(c), Steps8(d))
  {
    hide Steps8, Xor;
    Steps8IsLinear(a, b);
    Steps8IsLinear(c, d);
    Steps8IsLinear(Xor(a, b), Xor(c, d));
  }

  lemma Steps8Combined(i: Byte, w0: Word, w1: Word, w2: Word, w3: Word, w4: Word, w5: Word, w6: Word, w7: Word)
    ensures Steps8(Combined(i, w0, w1, w2, w3, w4, w5, w6, w7))
            == Combined(i, Steps8(w0), Steps8(w1), Steps8(w2), Steps8(w3),
                      Steps8(w4), Steps8(w5), Steps8(w6), Steps8(w7))
  {
    hide Steps8, Xor, Four, On;
    Steps8Four(On(i, 0x01, w0), On(i, 0x02, w1), On(i, 0x04, w2), On(i, 0x08, w3));
    Steps8Four(On(i, 0x10, w4), On(i, 0x20, w5), On(i, 0x40, w6), On(i, 0x80, w7));
    Steps8IsLinear(Four(On(i, 0x01, w0), On(i, 0x02, w1), On(i, 0x04, w2), On(i, 0x08, w3)),
                   Four(On(i, 0x10, w4), On(i, 0x20, w5), On(i, 0x40, w6), On(i, 0x80, w7)));
    Steps8On(i, 0x01, w0);
    Steps8On(i, 0x02, w1);
    Steps8On(i, 0x04, w2);
    Steps8On(i, 0x08, w3);
    Steps8On(i, 0x10, w4);
    Steps8On(i, 0x20, w5);
    Steps8On(i, 0x40, w6);
    Steps8On(i, 0x80, w7);
  }

  // The entries for single bits.
  lemma SingleBitsLow()
    ensures Steps8(0x01000000) == 0x04C11DB7
    ensures Steps8(0x02000000) == 0x09823B6E
    ensures Steps8(0x04000000) == 0x130476DC
    ensures Steps8(0x08000000) == 0x2608EDB8
  {
  }

  lemma SingleBitsHigh()
    ensures Steps8(0x10000000) == 0x4C11DB70
    ensures Steps8(0x20000000) == 0x9823B6E0
    ensures Steps8(0x40000000) == 0x34867077
    ensures Steps8(0x80000000) == 0x690CE0EE
  {
  }

  function FromBits(i: Byte): Word {
    Combined(i, 0x04C11DB7, 0x09823B6E, 0x130476DC, 0x2608EDB8, 0x4C11DB70, 0x9823B6E0, 0x34867077, 0x690CE0EE)
  }

  lemma TableRow0(i: Byte)
    requires i >> 4 == 0x00
    ensures Table(i) == FromBits(i)
  {
    if i & 0x08 == 0 {} else {}
  }

  lemma TableRow1(i: Byte)
    requires i >> 4 == 0x01
    ensures Table(i) == FromBits(i)
  {
    if i & 0x08 == 0 {} else {}
  }

  lemma TableRow2(i: Byte)
    requires i >> 4 == 0x02
    ensures Table(i) == FromBits(i)
  {
    if i & 0x08 == 0 {} else {}
  }

  lemma TableRow3(i: Byte)
    requires i >> 4 == 0x03
    ensures Table(i) == FromBits(i)
  {
    if i & 0x08 == 0 {} else {}
  }

  lemma TableRow4(i: Byte)
    requires i >> 4 == 0x04
    ensures Table(i) == FromBits(i)
  {
    if i & 0x08 == 0 {} else {}
  }

  lemma TableRow5(i: Byte)
    requires i >> 4 == 0x05
    ensures Table(i) == FromBits(i)
  {
    if i & 0x08 == 0 {} else {}
  }

  lemma TableRow6(i: Byte)
    requires i >> 4 == 0x06
    ensures Table(i) == FromBits(i)
  {
    if i & 0x08 == 0 {} else {}
  }

  lemma TableRow7(i: Byte)
    requires i >> 4 == 0x07
    ensures Table(i) == FromBits(i)
  {
    if i & 0x08 == 0 {} else {}
  }

  lemma TableRow8(i: Byte)
    requires i >> 4 == 0x08
    ensures Table(i) == FromBits(i)
  {
    if i & 0x08 == 0 {} else {}
  }

  lemma TableRow9(i: Byte)
    requires i >> 4 == 0x09
    ensures Table(i) == FromBits(i)
  {
    if i & 0x08 == 0 {} else {}
  }

  lemma TableRowA(i: Byte)
    requires i >> 4 == 0x0A
    ensures Table(i) == FromBits(i)
  {
    if i & 0x08 == 0 {} else {}
  }

  lemma TableRowB(i: Byte)
    requires i >> 4 == 0x0B
    ensures Table(i) == FromBits(i)
  {
    if i & 0x08 == 0 {} else {}
  }

  lemma TableRowC(i: Byte)
    requires i >> 4 == 0x0C
    ensures Table(i) == FromBits(i)
  {
    if i & 0x08 == 0 {} else {}
  }

  lemma TableRowD(i: Byte)
    requires i >> 4 == 0x0D
    ensures Table(i) == FromBits(i)
  {
    if i & 0x08 == 0 {} else {}
  }

  lemma TableRowE(i: Byte)
    requires i >> 4 == 0x0E
    ensures Table(i) == FromBits(i)
  {
    if i & 0x08 == 0 {} else {}
  }

  lemma TableRowF(i: Byte)
    requires i >> 4 == 0x0F
    ensures Table(i) == FromBits(i)
  {
    if i & 0x08 == 0 {} else {}
  }

  lemma TableIsFromBits(i: Byte)
    ensures Table(i) == FromBits(i)
  {
    hide Table, FromBits;
    var row := i >> 4;
    if row == 0x00 { TableRow0(i); }
    else if row == 0x01 { TableRow1(i); }
    else if row == 0x02 { TableRow2(i); }
    else if row == 0x03 { TableRow3(i); }
    else if row == 0x04 { TableRow4(i); }
    else if row == 0x05 { TableRow5(i); }
    else if row == 0x06 { TableRow6(i); }
    else if row == 0x07 { TableRow7(i); }
    else if row == 0x08 { TableRow8(i); }
    else if row == 0x09 { TableRow9(i); }
    else if row == 0x0A { TableRowA(i); }
    else if row == 0x0B { TableRowB(i); }
    else if row == 0x0C { TableRowC(i); }
    else if row == 0x0D { TableRowD(i); }
    else if row == 0x0E { TableRowE(i); }
    else { TableRowF(i); }
  }

  // Every entry of the table is the eight-step update of its index.
  lemma TableIsSteps(i: Byte)
    ensures Table(i) == Steps8((i as Word) << 24)
  {
    hide Table, Steps8, Combined;
    TableIsFromBits(i);
    ByteIsCombined(i);
    Steps8Combined(i, 0x01000000, 0x02000000, 0x04000000, 0x08000000, 0x10000000, 0x20000000, 0x40000000, 0x80000000);
    SingleBitsLow();
    SingleBitsHigh();
  }

  // ---------------------------------------------------------------- a byte at a time

  // The update of the code.
  function TableUpdate(r: Word, b: Byte): Word { Xor(Table(b ^ (((r >> 24) & 0xFF) as Byte)), r << 8) }

  lemma TopByteApart(r: Word, b: Byte)
    ensures Xor(r, (b as Word) << 24) == Xor(((b ^ (((r >> 24) & 0xFF) as Byte)) as Word) << 24, r & 0x00FFFFFF)
  {
  }

  lemma TableUpdateIsSteps(r: Word, b: Byte)
    ensures TableUpdate(r, b) == Steps8(Xor(r, (b as Word) << 24))
  {
    hide Table, Steps8, Xor;
    var i := b ^ (((r >> 24) & 0xFF) as Byte);
    TopByteApart(r, b);
    Steps8IsLinear((i as Word) << 24, r & 0x00FFFFFF);
    TableIsSteps(i);
    LowerBytesShift(r);
  }

  // Adding a word and stepping is feeding its top bit, and adding the rest.
  lemma StepFeeds(r: Word, m: Word)
    ensures Step(Xor(r, m)) == Xor(Feed(r, Top(m)), Up(m))
  {
    hide Step, Xor, Up, Reduced;
    StepIsLinear(r, m);
    StepParts(m);
    if Top(m) {
      FeedTop(r);
      ReducedApart(Step(r), Up(m));
    }
  }

  lemma FeedTop(r: Word)
    ensures Feed(r, true) == Reduced(Step(r))
  {
    hide Step;
    StepIsLinear(r, 0x80000000);
    TopFallsOut();
  }

  lemma TopFallsOut()
    ensures Step(0x80000000) == 0x04C11DB7
  {
  }

  lemma ReducedApart(x: Word, y: Word)
    ensures Xor(x, Reduced(y)) == Xor(Reduced(x), y)
  {
  }

  lemma TopIsBit(b: Byte, w: Word)
    requires w == (b as Word) << 24
    ensures Top(w) == Bit(b, 0) && Top(Up(w)) == Bit(b, 1)
    ensures Top(Up(Up(w))) == Bit(b, 2) && Top(Up(Up(Up(w)))) == Bit(b, 3)
  {
  }

  lemma LowerIsBit(b: Byte, w: Word)
    requires w == (b as Word) << 28
    ensures Top(w) == Bit(b, 4) && Top(Up(w)) == Bit(b, 5)
    ensures Top(Up(Up(w))) == Bit(b, 6) && Top(Up(Up(Up(w)))) == Bit(b, 7) && Up(Up(Up(Up(w)))) == 0
  {
  }

  lemma UpFour(b: Byte)
    ensures Up(Up(Up(Up((b as Word) << 24)))) == (b as Word) << 28
  {
  }

  lemma FeedByteIsSteps(r: Word, b: Byte)
    ensures FeedByte(r, b) == Steps8(Xor(r, (b as Word) << 24))
  {
    hide Step, Xor, Up, Top, Feed, Bit;
    var m0 := (b as Word) << 24;
    var m1, r1 := Up(m0), Feed(r, Bit(b, 0));
    var m2, r2 := Up(m1), Feed(r1, Bit(b, 1));
    var m3, r3 := Up(m2), Feed(r2, Bit(b, 2));
    var m4, r4 := Up(m3), Feed(r3, Bit(b, 3));
    var m5, r5 := Up(m4), Feed(r4, Bit(b, 4));
    var m6, r6 := Up(m5), Feed(r5, Bit(b, 5));
    var m7, r7 := Up(m6), Feed(r6, Bit(b, 6));
    UpFour(b);
    TopIsBit(b, m0);
    LowerIsBit(b, m4);
    StepFeeds(r, m0);
    StepFeeds(r1, m1);
    StepFeeds(r2, m2);
    StepFeeds(r3, m3);
    StepFeeds(r4, m4);
    StepFeeds(r5, m5);
    StepFeeds(r6, m6);
    StepFeeds(r7, m7);
    XorZero(Feed(r7, Bit(b, 7)));
  }

  lemma XorZero(x: Word)
    ensures Xor(x, 0) == x
  {
  }

  lemma TableUpdateFeeds(r: Word, b: Byte)
    ensures TableUpdate(r, b) == FeedByte(r, b)
  {
    hide Steps8, Xor, TableUpdate, FeedByte;
    TableUpdateIsSteps(r, b);
    FeedByteIsSteps(r, b);
  }

  // crc32
  method Crc32(src: array<Byte>, len: nat) returns (crc: Word)
    requires len <= src.Length
    ensures crc == Crc(src[..len])
  {
    hide TableUpdate, FeedByte;
    crc := 0xFFFFFFFF;
    var left := len;
    var data := 0;
    while left > 0
      invariant data + left == len && crc == FeedAll(START, src[..data])
    {
      assert src[..data + 1][..data] == src[..data];
      TableUpdateFeeds(crc, src[data]);
      crc := TableUpdate(crc, src[data]);
      data := data + 1;
      left := left - 1;
    }
  }

  // ---------------------------------------------------------------- what it promises of messages

  function TopByte(r: Word): Byte { ((r >> 24) & 0xFF) as Byte }

  function Up8(r: Word): Word { r << 8 }

  lemma FedItsTopByte(r: Word)
    ensures FeedByte(r, TopByte(r)) == Up8(r)
  {
    hide Table, FeedByte, Xor;
    TableUpdateFeeds(r, TopByte(r));
    SameByte(TopByte(r));
    ZeroEntry();
    ZeroXor(r << 8);
  }

  lemma SameByte(b: Byte)
    ensures b ^ b == 0
  {
  }

  lemma ZeroEntry()
    ensures Table(0) == 0
  {
  }

  lemma ZeroXor(x: Word)
    ensures Xor(0, x) == x
  {
  }

  // The four bytes of a word, the most significant first.
  function WordBytes(r: Word): seq<Byte> {
    [TopByte(r), TopByte(Up8(r)), TopByte(Up8(Up8(r))), TopByte(Up8(Up8(Up8(r))))]
  }

  lemma FeedOneMore(r: Word, m: seq<Byte>, b: Byte)
    ensures FeedAll(r, m + [b]) == FeedByte(FeedAll(r, m), b)
  {
    hide FeedByte;
    assert (m + [b])[..|m + [b]| - 1] == m;
  }

  lemma Emptied(r: Word)
    ensures Up8(Up8(Up8(Up8(r)))) == 0
  {
  }

  // The check value of the catalogue of CRC algorithms: that of the nine digits from 1 to 9, for this
  // polynomial, all ones at the start and no complement at the end.
  lemma CheckValue()
    ensures Crc([0x31, 0x32, 0x33, 0x34, 0x35, 0x36, 0x37, 0x38, 0x39]) == 0x0376E6E7
  {
    hide FeedByte, FeedAll;
    NoBytes(START);
    FirstDigits();
    LastDigits();
    var m: seq<Byte> := [0x31, 0x32, 0x33, 0x34, 0x35, 0x36, 0x37, 0x38, 0x39];
    assert m[..0] == [] && m[..9] == m;
    FeedNext(m, 0);
    FeedNext(m, 1);
    FeedNext(m, 2);
    FeedNext(m, 3);
    FeedNext(m, 4);
    FeedNext(m, 5);
    FeedNext(m, 6);
    FeedNext(m, 7);
    FeedNext(m, 8);
  }

  lemma NoBytes(r: Word)
    ensures FeedAll(r, []) == r
  {
  }

  lemma FeedNext(m: seq<Byte>, i: nat)
    requires i < |m|
    ensures FeedAll(START, m[..i + 1]) == FeedByte(FeedAll(START, m[..i]), m[i])
  {
    hide FeedByte;
    assert m[..i + 1][..i] == m[..i];
  }

  lemma FirstDigits()
    ensures FeedByte(0xFFFFFFFF, 0x31) == 0x9EFBCF93
    ensures FeedByte(0x9EFBCF93, 0x32) == 0x3FEC5E6A
    ensures FeedByte(0x3FEC5E6A, 0x33) == 0xD952F164
    ensures FeedByte(0xD952F164, 0x34) == 0xA695C4AA
    ensures FeedByte(0xA695C4AA, 0x35) == 0xBD9AB747
  {
  }

  lemma LastDigits()
    ensures FeedByte(0xBD9AB747, 0x36) == 0xD8F06C8F
    ensures FeedByte(0xD8F06C8F, 0x37) == 0x0D8A14C4
    ensures FeedByte(0x0D8A14C4, 0x38) == 0x49E3C2FB
    ensures FeedByte(0x49E3C2FB, 0x39) == 0x0376E6E7
  {
  }

  // A message with its CRC behind it has the CRC zero.
  lemma OwnCrcGivesZero(message: seq<Byte>)
    ensures Crc(message + WordBytes(Crc(message))) == 0
  {
    hide FeedByte, FeedAll, TopByte, Up8;
    var r := Crc(message);
    var r1 := Up8(r);
    var r2 := Up8(r1);
    var r3 := Up8(r2);
    Emptied(r);
    var b0, b1, b2, b3 := TopByte(r), TopByte(r1), TopByte(r2), TopByte(r3);
    FeedOneMore(START, message, b0);
    FeedOneMore(START, message + [b0], b1);
    FeedOneMore(START, message + [b0] + [b1], b2);
    FeedOneMore(START, message + [b0] + [b1] + [b2], b3);
    FedItsTopByte(r);
    FedItsTopByte(r1);
    FedItsTopByte(r2);
    FedItsTopByte(r3);
    assert message + WordBytes(r) == message + [b0] + [b1] + [b2] + [b3];
  }

  // The register before a step can be told from the one after it, as the polynomial is odd.
  function Unstep(r: Word): Word { if r & 1 != 0 then ((r ^ 0x04C11DB7) >> 1) | 0x80000000 else r >> 1 }

  lemma OddStep(r: Word)
    requires r & 0x80000000 != 0
    ensures Unstep((r << 1) ^ 0x04C11DB7) == r
  {
  }

  lemma EvenStep(r: Word)
    requires r & 0x80000000 == 0
    ensures Unstep(r << 1) == r
  {
  }

  lemma StepInverts(r: Word)
    ensures Unstep(Step(r)) == r
  {
    hide Unstep;
    if r & 0x80000000 != 0 { OddStep(r); } else { EvenStep(r); }
  }

  lemma Steps8Injective(x: Word, y: Word)
    requires Steps8(x) == Steps8(y)
    ensures x == y
  {
    hide Step, Unstep;
    var x1, y1 := Step(x), Step(y);
    var x2, y2 := Step(x1), Step(y1);
    var x3, y3 := Step(x2), Step(y2);
    var x4, y4 := Step(x3), Step(y3);
    var x5, y5 := Step(x4), Step(y4);
    var x6, y6 := Step(x5), Step(y5);
    var x7, y7 := Step(x6), Step(y6);
    StepInverts(x7); StepInverts(y7);
    StepInverts(x6); StepInverts(y6);
    StepInverts(x5); StepInverts(y5);
    StepInverts(x4); StepInverts(y4);
    StepInverts(x3); StepInverts(y3);
    StepInverts(x2); StepInverts(y2);
    StepInverts(x1); StepInverts(y1);
    StepInverts(x); StepInverts(y);
  }

  lemma XorCancels(r: Word, x: Word, y: Word)
    requires Xor(r, x) == Xor(r, y)
    ensures x == y
  {
  }

  lemma XorCancelsLeft(r: Word, s: Word, x: Word)
    requires Xor(r, x) == Xor(s, x)
    ensures r == s
  {
  }

  lemma PlacedByte(b: Byte, c: Byte)
    requires (b as Word) << 24 == (c as Word) << 24
    ensures b == c
  {
  }

  lemma FeedByteInjective(r: Word, s: Word, b: Byte, c: Byte)
    requires FeedByte(r, b) == FeedByte(s, c)
    ensures b == c ==> r == s
    ensures r == s ==> b == c
  {
    hide FeedByte, Steps8, Xor;
    FeedByteIsSteps(r, b);
    FeedByteIsSteps(s, c);
    Steps8Injective(Xor(r, (b as Word) << 24), Xor(s, (c as Word) << 24));
    if b == c { XorCancelsLeft(r, s, (b as Word) << 24); }
    if r == s {
      XorCancels(r, (b as Word) << 24, (c as Word) << 24);
      PlacedByte(b, c);
    }
  }

  // Two messages that differ in one byte only have different CRCs.
  lemma {:induction false} OneByteErrorShows(m: seq<Byte>, n: seq<Byte>, k: nat)
    requires |m| == |n| && k < |m| && m[k] != n[k]
    requires forall i :: 0 <= i < |m| && i != k ==> m[i] == n[i]
    ensures Crc(m) != Crc(n)
  {
    hide FeedByte;
    var last := |m| - 1;
    if k == last {
      assert m[..last] == n[..last];
      if Crc(m) == Crc(n) { FeedByteInjective(Crc(m[..last]), Crc(n[..last]), m[last], n[last]); }
    } else {
      OneByteErrorShows(m[..last], n[..last], k);
      if Crc(m) == Crc(n) { FeedByteInjective(Crc(m[..last]), Crc(n[..last]), m[last], n[last]); }
    }
  }
}
