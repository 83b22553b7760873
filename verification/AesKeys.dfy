// aes_cbc.c: the key expansion of AES_set_key, which fills the schedule with the words of section 5.2 of
// FIPS 197.
module AesKeys {
  import opened Aes
  import opened Fips197

  // ---------------------------------------------------------------- the standard

  // x to the power k in the field.
  function Power(k: nat): Byte { if k == 0 then 1 else Double(Power(k - 1)) }

  function RoundConstant(j: nat): Word
    requires j > 0
  {
    Pack(Column(Power(j - 1), 0, 0, 0))
  }

  function RotWord(w: Word): Word { Pack(Column(Bytes(w).a1, Bytes(w).a2, Bytes(w).a3, Bytes(w).a0)) }

  ghost function SubWord(w: Word): Word {
    var c := Bytes(w);
    Pack(Column(SubByte(c.a0), SubByte(c.a1), SubByte(c.a2), SubByte(c.a3)))
  }

  predicate IsKey(key: seq<Byte>) { |key| == 16 || |key| == 32 }

  ghost function KeyWord(key: seq<Byte>, i: nat): Word
    requires IsKey(key)
    decreases i
  {
    var nk := |key| / 4;
    if i < nk then Pack(Column(key[4 * i], key[4 * i + 1], key[4 * i + 2], key[4 * i + 3]))
    else
      var temp := KeyWord(key, i - 1);
      Xor(KeyWord(key, i - nk),
          if i % nk == 0 then Xor(SubWord(RotWord(temp)), RoundConstant(i / nk))
          else if nk > 6 && i % nk == 4 then SubWord(temp)
          else temp)
  }

  // ---------------------------------------------------------------- the table of round constants

  const RCON: seq<Byte> := [0x01, 0x02, 0x04, 0x08, 0x10, 0x20, 0x40, 0x80, 0x1B, 0x36, 0x6C, 0xD8, 0xAB, 0x4D, 0x9A,
                            0x2F, 0x5E, 0xBC, 0x63, 0xC6, 0x97, 0x35, 0x6A, 0xD4, 0xB3, 0x7D, 0xFA, 0xEF, 0xC5, 0x91]

  function Rcon(k: nat): Byte
    requires k < 30
  {
    RCON[k]
  }

  lemma RconDoubles(k: nat)
    requires 0 < k < 30
    ensures Rcon(k) == Double(Rcon(k - 1))
  {
    if k < 10 {} else if k < 20 {} else {}
  }

  lemma RconStarts()
    ensures Rcon(0) == 1
  {
  }

  lemma {:induction false} RconIsPower(k: nat)
    requires k < 30
    ensures Rcon(k) == Power(k)
  {
    hide Double, Rcon;
    if k > 0 {
      RconIsPower(k - 1);
      RconDoubles(k);
    } else {
      RconStarts();
    }
  }

  // ---------------------------------------------------------------- the code itself

  datatype Mode = Mode128 | Mode256 | OtherMode

  // The four tables look-ups for RotWord and SubWord, and those for SubWord.
  method SubstituteTurned(tmp: Word) returns (w: Word)
    ensures w == SubWord(RotWord(tmp))
  {
    hide Sbox, SubByte, Pack, Bytes, ByteAt;
    w := Pack(Column(Sbox(ByteAt(tmp, 1)), Sbox(ByteAt(tmp, 2)), Sbox(ByteAt(tmp, 3)), Sbox(ByteAt(tmp, 0))));
    BytesAt(tmp);
    BytesPack(Column(Bytes(tmp).a1, Bytes(tmp).a2, Bytes(tmp).a3, Bytes(tmp).a0));
    SboxIsSubByte(ByteAt(tmp, 0));
    SboxIsSubByte(ByteAt(tmp, 1));
    SboxIsSubByte(ByteAt(tmp, 2));
    SboxIsSubByte(ByteAt(tmp, 3));
  }

  method Substitute(tmp: Word) returns (w: Word)
    ensures w == SubWord(tmp)
  {
    hide Sbox, SubByte, Pack, Bytes, ByteAt;
    w := Pack(Column(Sbox(ByteAt(tmp, 0)), Sbox(ByteAt(tmp, 1)), Sbox(ByteAt(tmp, 2)), Sbox(ByteAt(tmp, 3))));
    BytesAt(tmp);
    SboxIsSubByte(ByteAt(tmp, 0));
    SboxIsSubByte(ByteAt(tmp, 1));
    SboxIsSubByte(ByteAt(tmp, 2));
    SboxIsSubByte(ByteAt(tmp, 3));
  }

  lemma RconWord(j: nat)
    requires 0 < j <= 30
    ensures Pack(Column(Rcon(j - 1), 0, 0, 0)) == RoundConstant(j)
  {
    hide Pack, Power, Rcon;
    RconIsPower(j - 1);
  }

  // One word of the second loop, with the round constant the pointer is at.
  method NextWord(w: array<Word>, i: nat, words: nat, ip: nat, ghost key: seq<Byte>) returns (tmp: Word, next: nat)
    requires IsKey(key) && words == |key| / 4 <= i < w.Length && i < 4 * (words + 7) && ip == (i - 1) / words
    requires forall j :: 0 <= j < i ==> w[j] == KeyWord(key, j)
    ensures Xor(w[i - words], tmp) == KeyWord(key, i) && next == i / words
  {
    hide Sbox, SubByte, Pack, Bytes, Xor, SubWord, RotWord, RoundConstant, Rcon;
    tmp := w[i - 1];
    next := ip;
    Quotients(i, words);
    if i % words == 0 {
      var tmp2 := SubstituteTurned(tmp);
      RconWord(ip + 1);
      tmp := Xor(tmp2, Pack(Column(Rcon(ip), 0, 0, 0)));
      next := ip + 1;
    }
    if words == 8 && i % words == 4 {
      tmp := Substitute(tmp);
    }
  }

  lemma Quotients(i: nat, words: nat)
    requires words == 4 || words == 8
    requires words <= i < 4 * (words + 7)
    ensures (i - 1) / words < 30
    ensures i % words == 0 ==> i / words == (i - 1) / words + 1
    ensures i % words != 0 ==> i / words == (i - 1) / words
  {
  }

  // The first loop, two words at a time.
  method LoadKey(key: seq<Byte>, words: nat, w: array<Word>)
    requires IsKey(key) && words == |key| / 4 && w.Length >= words
    modifies w
    ensures forall j :: 0 <= j < words ==> w[j] == KeyWord(key, j)
  {
    hide Pack, Xor, KeyWord;
    var i := 0;
    while i < words
      invariant i <= words && i % 2 == 0
      invariant forall j :: 0 <= j < i ==> w[j] == KeyWord(key, j)
    {
      FirstWords(key, i);
      FirstWords(key, i + 1);
      w[i] := Pack(Column(key[4 * i], key[4 * i + 1], key[4 * i + 2], key[4 * i + 3]));
      w[i + 1] := Pack(Column(key[4 * i + 4], key[4 * i + 5], key[4 * i + 6], key[4 * i + 7]));
      i := i + 2;
    }
  }

  // The second loop, up to word ii.
  method ExpandKey(ghost key: seq<Byte>, words: nat, ii: nat, w: array<Word>)
    requires IsKey(key) && words == |key| / 4 <= ii <= w.Length && ii <= 4 * (words + 7)
    requires forall j :: 0 <= j < words ==> w[j] == KeyWord(key, j)
    modifies w
    ensures forall j :: 0 <= j < ii ==> w[j] == KeyWord(key, j)
  {
    hide Xor, KeyWord;
    var i, ip := words, 0;
    while i < ii
      invariant words <= i <= ii && ip == (i - 1) / words
      invariant forall j :: 0 <= j < i ==> w[j] == KeyWord(key, j)
    {
      var tmp, next := NextWord(w, i, words, ip, key);
      w[i] := Xor(w[i - words], tmp);
      ip, i := next, i + 1;
    }
  }

  // AES_set_key; a mode it does not know changes nothing.
  method SetKey(key: seq<Byte>, mode: Mode, w: array<Word>) returns (rounds: nat)
    requires mode.Mode128? ==> |key| >= 16
    requires mode.Mode256? ==> |key| >= 32
    requires w.Length >= 60
    modifies w
    ensures mode == OtherMode ==> rounds == 0 && w[..] == old(w[..])
    ensures mode != OtherMode ==>
      && rounds == (if mode.Mode128? then 10 else 14)
      && forall i :: 0 <= i < 4 * (rounds + 1) ==> w[i] == KeyWord(key[..if mode.Mode128? then 16 else 32], i)
  {
    hide KeyWord;
    if mode == OtherMode {
      return 0;
    }
    var words := if mode.Mode128? then 4 else 8;
    rounds := if mode.Mode128? then 10 else 14;
    LoadKey(key[..4 * words], words, w);
    ExpandKey(key[..4 * words], words, 4 * (rounds + 1), w);
  }

  lemma FirstWords(key: seq<Byte>, i: nat)
    requires IsKey(key) && i < |key| / 4
    ensures KeyWord(key, i) == Pack(Column(key[4 * i], key[4 * i + 1], key[4 * i + 2], key[4 * i + 3]))
  {
  }
}
