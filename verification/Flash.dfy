// s19toslm.py lays an image out in flash and boot_code.c copies it back to the two memories, 4 KB at
// a time. Proved is that bytes make up the same words in whatever order a dictionary gives them,
// that the regions of the flash do not overlap, and which words of an image come back: all of them
// if each part is dense from the start of its memory.
//
// Memories are indexed by words, the flash by bytes. A read over SPI is the inverse of dump_bytes.
module Flash {
  import opened Options
  import opened Rings

  type Byte = b: nat | b < 256

  // The eight hexadecimal digits of a word, two by two.
  datatype Word = Word(byte0: Byte, byte1: Byte, byte2: Byte, byte3: Byte)

  const ZERO: Word := Word(0, 0, 0, 0)

  // ---------------------------------------------------------------- arranging bytes in words

  // The byte at the lowest address is the last pair of digits.
  function Put(data: Word, byte: nat, value: Byte): Word {
    match byte
    case 0 => data.(byte3 := value)
    case 1 => data.(byte2 := value)
    case 2 => data.(byte1 := value)
    case _ => data.(byte0 := value)
  }

  // One turn of the loop of bytes_to_words
  function Arranged(words: map<nat, Word>, addr: nat, value: Byte): map<nat, Word> {
    words[addr / 4 := Put(if addr / 4 in words then words[addr / 4] else ZERO, addr % 4, value)]
  }

  function ByteOr(bytes: map<nat, Byte>, addr: nat, otherwise: Byte): Byte {
    if addr in bytes then bytes[addr] else otherwise
  }

  // The words of a dictionary of bytes: there is one wherever there is one of its bytes, and bytes
  // that are missing are zero.
  predicate HasWord(bytes: map<nat, Byte>, w: nat) {
    4 * w in bytes || 4 * w + 1 in bytes || 4 * w + 2 in bytes || 4 * w + 3 in bytes
  }

  function WordOf(bytes: map<nat, Byte>, w: nat): Word {
    Word(ByteOr(bytes, 4 * w + 3, 0), ByteOr(bytes, 4 * w + 2, 0), ByteOr(bytes, 4 * w + 1, 0), ByteOr(bytes, 4 * w, 0))
  }

  ghost predicate AreWordsOf(words: map<nat, Word>, bytes: map<nat, Byte>) {
    forall w :: (w in words <==> HasWord(bytes, w)) && (w in words ==> words[w] == WordOf(bytes, w))
  }

  // The part of a dictionary whose keys come first in an order.
  function Part(bytes: map<nat, Byte>, order: seq<nat>): map<nat, Byte> {
    map a | a in bytes && a in order :: bytes[a]
  }

  lemma ByteElsewhere(bytes: map<nat, Byte>, addr: nat, value: Byte, a: nat)
    requires a != addr
    ensures ByteOr(bytes[addr := value], a, 0) == ByteOr(bytes, a, 0) && (a in bytes[addr := value] <==> a in bytes)
  {
  }

  lemma OtherWord(bytes: map<nat, Byte>, addr: nat, value: Byte, v: nat)
    requires addr < 4 * v || 4 * v + 3 < addr
    ensures HasWord(bytes[addr := value], v) == HasWord(bytes, v)
    ensures WordOf(bytes[addr := value], v) == WordOf(bytes, v)
  {
    hide ByteOr;
    ByteElsewhere(bytes, addr, value, 4 * v);
    ByteElsewhere(bytes, addr, value, 4 * v + 1);
    ByteElsewhere(bytes, addr, value, 4 * v + 2);
    ByteElsewhere(bytes, addr, value, 4 * v + 3);
  }

  // A word that is not there yet is all zeros.
  lemma NoWord(bytes: map<nat, Byte>, w: nat)
    requires !HasWord(bytes, w)
    ensures WordOf(bytes, w) == ZERO
  {
  }

  lemma OwnWord(bytes: map<nat, Byte>, w: nat, i: nat, value: Byte)
    requires i < 4
    ensures HasWord(bytes[4 * w + i := value], w)
    ensures WordOf(bytes[4 * w + i := value], w) == Put(WordOf(bytes, w), i, value)
  {
    var addr := 4 * w + i;
    hide ByteOr;
    if i != 0 { ByteElsewhere(bytes, addr, value, 4 * w); }
    if i != 1 { ByteElsewhere(bytes, addr, value, 4 * w + 1); }
    if i != 2 { ByteElsewhere(bytes, addr, value, 4 * w + 2); }
    if i != 3 { ByteElsewhere(bytes, addr, value, 4 * w + 3); }
    OwnByte(bytes, addr, value);
  }

  lemma OwnByte(bytes: map<nat, Byte>, addr: nat, value: Byte)
    ensures ByteOr(bytes[addr := value], addr, 0) == value
  {
  }

  lemma PutNext(words: map<nat, Word>, bytes: map<nat, Byte>, w: nat, i: nat, value: Byte)
    requires AreWordsOf(words, bytes) && i < 4 && 4 * w + i !in bytes
    ensures AreWordsOf(words[w := Put(if w in words then words[w] else ZERO, i, value)], bytes[4 * w + i := value])
  {
    hide HasWord, WordOf, Put;
    var words' := words[w := Put(if w in words then words[w] else ZERO, i, value)];
    var bytes' := bytes[4 * w + i := value];
    OwnWord(bytes, w, i, value);
    if w !in words { NoWord(bytes, w); }
    forall v
      ensures (v in words' <==> HasWord(bytes', v)) && (v in words' ==> words'[v] == WordOf(bytes', v))
    {
      if v != w { OtherWord(bytes, 4 * w + i, value, v); }
    }
  }

  lemma ArrangedNext(words: map<nat, Word>, bytes: map<nat, Byte>, addr: nat, value: Byte)
    requires AreWordsOf(words, bytes) && addr !in bytes
    ensures AreWordsOf(Arranged(words, addr, value), bytes[addr := value])
  {
    hide AreWordsOf, Put;
    assert addr == 4 * (addr / 4) + addr % 4;
    PutNext(words, bytes, addr / 4, addr % 4, value);
  }

  // bytes_to_words. Whatever the order in which the dictionary gives its bytes, the words are the same.
  method BytesToWords(bytes: map<nat, Byte>, order: seq<nat>) returns (words: map<nat, Word>)
    requires NoDup(order) && forall a :: a in order <==> a in bytes
    ensures AreWordsOf(words, bytes)
  {
    hide AreWordsOf, Arranged, NoDup;
    words := map[];
    NothingArranged();
    assert Part(bytes, order[..0]) == map[];
    var i := 0;
    while i < |order|
      invariant 0 <= i <= |order| && AreWordsOf(words, Part(bytes, order[..i]))
    {
      NextPart(bytes, order, i);
      ArrangedNext(words, Part(bytes, order[..i]), order[i], bytes[order[i]]);
      words := Arranged(words, order[i], bytes[order[i]]);
      i := i + 1;
    }
    assert order[..i] == order;
    assert Part(bytes, order) == bytes;
  }

  lemma NothingArranged()
    ensures AreWordsOf(map[], map[])
  {
  }

  lemma NextPart(bytes: map<nat, Byte>, order: seq<nat>, i: nat)
    requires NoDup(order) && i < |order| && order[i] in bytes
    ensures order[i] !in Part(bytes, order[..i])
    ensures Part(bytes, order[..i + 1]) == Part(bytes, order[..i])[order[i] := bytes[order[i]]]
  {
    assert order[..i + 1] == order[..i] + [order[i]];
  }

  // A dictionary of bytes has one dictionary of words.
  lemma WordsAreUnique(v: map<nat, Word>, w: map<nat, Word>, bytes: map<nat, Byte>)
    requires AreWordsOf(v, bytes) && AreWordsOf(w, bytes)
    ensures v == w
  {
    forall a ensures a in v <==> a in w {}
  }

  // ---------------------------------------------------------------- the layout

  const L2_START: nat := 0
  const L2_WORDS: nat := 8192
  const TCDM_START: nat := 0x40000
  const TCDM_WORDS: nat := 6144
  const HEADER: nat := 8             // words
  const BLOCK: nat := 1024           // words of 4 KB

  predicate InL2(a: nat) { L2_START <= a < L2_START + L2_WORDS }

  predicate InTcdm(a: nat) { TCDM_START <= a < TCDM_START + TCDM_WORDS }

  // l2_size and tcdm_size
  function L2Size(keys: set<nat>): nat { |set a | a in keys && InL2(a)| }

  function TcdmSize(keys: set<nat>): nat { |set a | a in keys && InTcdm(a)| }

  function Blocks(size: nat): nat { size / BLOCK + 1 }

  // Where the instructions begin, in words.
  function L2Offset(tcdmSize: nat): nat { ((tcdmSize + HEADER) / BLOCK + 1) * BLOCK }

  function Hex(n: nat): Word
    requires n < 0x1_0000_0000
  {
    var q1 := n / 0x100;
    var q2 := q1 / 0x100;
    Word(q2 / 0x100, q2 % 0x100, q1 % 0x100, n % 0x100)
  }

  function Number(w: Word): nat { w.byte0 * 0x100_0000 + w.byte1 * 0x1_0000 + w.byte2 * 0x100 + w.byte3 }

  lemma NumberOfHex(n: nat)
    requires n < 0x1_0000_0000
    ensures Number(Hex(n)) == n
  {
  }

  // The eight numbers of the header: offset, start, size and blocks of either part, in bytes but for
  // the blocks.
  function HeaderNumber(l2Size: nat, tcdmSize: nat, i: nat): nat
    requires i < HEADER
  {
    match i
    case 0 => L2Offset(tcdmSize) * 4
    case 1 => L2_START * 4
    case 2 => l2Size * 4
    case 3 => Blocks(l2Size)
    case 4 => HEADER * 4
    case 5 => TCDM_START * 4
    case 6 => tcdmSize * 4
    case _ => Blocks(tcdmSize)
  }

  lemma HeaderNumberFits(l2Size: nat, tcdmSize: nat, i: nat)
    requires i < HEADER && l2Size <= L2_WORDS && tcdmSize <= TCDM_WORDS
    ensures HeaderNumber(l2Size, tcdmSize, i) < 0x1_0000_0000
    ensures L2Offset(tcdmSize) <= 8192 && HEADER + tcdmSize < L2Offset(tcdmSize)
  {
  }

  lemma {:induction false} SubsetSize(s: set<nat>, lo: nat, n: nat)
    requires forall a :: a in s ==> lo <= a < lo + n
    ensures |s| <= n
  {
    if n > 0 {
      SubsetSize(s - {lo + n - 1}, lo, n - 1);
    } else {
      assert s == {};
    }
  }

  lemma SizesFit(keys: set<nat>)
    ensures L2Size(keys) <= L2_WORDS && TcdmSize(keys) <= TCDM_WORDS
  {
    SubsetSize((set a | a in keys && InL2(a)), L2_START, L2_WORDS);
    SubsetSize((set a | a in keys && InTcdm(a)), TCDM_START, TCDM_WORDS);
  }

  // What the flash holds at word p once the words with the given keys are written: the header, then
  // a word of the data, which is written last, or else one of the instructions.
  function FlashWord(words: map<nat, Word>, seen: set<nat>, l2Size: nat, tcdmSize: nat, p: nat): Option<Word>
    requires l2Size <= L2_WORDS && tcdmSize <= TCDM_WORDS
  {
    var d := TCDM_START + p - HEADER;
    var i := L2_START + p - L2Offset(tcdmSize);
    if p < HEADER then
      HeaderNumberFits(l2Size, tcdmSize, p);
      Some(Hex(HeaderNumber(l2Size, tcdmSize, p)))
    else if InTcdm(d) && d in seen && d in words then Some(words[d])
    else if i >= 0 && InL2(i) && i in seen && i in words then Some(words[i])
    else None
  }

  function ByteOf(w: Word, i: nat): Byte
    requires i < 4
  {
    match i case 0 => w.byte0 case 1 => w.byte1 case 2 => w.byte2 case _ => w.byte3
  }

  predicate HoldsByte(flash: map<nat, Byte>, addr: nat, w: Option<Word>, i: nat)
    requires i < 4
  {
    (addr in flash <==> w.Some?) && (w.Some? ==> addr in flash && flash[addr] == ByteOf(w.value, i))
  }

  // Word p of the flash is written with w, or not at all.
  predicate Holds(flash: map<nat, Byte>, p: nat, w: Option<Word>) {
    && HoldsByte(flash, 4 * p, w, 0) && HoldsByte(flash, 4 * p + 1, w, 1)
    && HoldsByte(flash, 4 * p + 2, w, 2) && HoldsByte(flash, 4 * p + 3, w, 3)
  }

  ghost predicate HoldsAll(flash: map<nat, Byte>, words: map<nat, Word>, seen: set<nat>, l2Size: nat, tcdmSize: nat)
    requires l2Size <= L2_WORDS && tcdmSize <= TCDM_WORDS
  {
    forall p: nat :: Holds(flash, p, FlashWord(words, seen, l2Size, tcdmSize, p))
  }

  // The flash made from an image.
  ghost predicate IsPacked(flash: map<nat, Byte>, words: map<nat, Word>) {
    SizesFit(words.Keys);
    HoldsAll(flash, words, words.Keys, L2Size(words.Keys), TcdmSize(words.Keys))
  }

  function Dumped(flash: map<nat, Byte>, p: nat, w: Word, n: nat): map<nat, Byte>
    requires n <= 4
  {
    if n == 0 then flash else Dumped(flash, p, w, n - 1)[4 * p + n - 1 := ByteOf(w, n - 1)]
  }

  // dump_bytes
  method DumpBytes(flash: map<nat, Byte>, p: nat, w: Word) returns (r: map<nat, Byte>)
    ensures r == Dumped(flash, p, w, 4)
  {
    r := flash;
    var i := 0;
    while i < 4
      invariant 0 <= i <= 4 && r == Dumped(flash, p, w, i)
    {
      r := r[4 * p + i := ByteOf(w, i)];
      i := i + 1;
    }
  }

  lemma DumpedHolds(flash: map<nat, Byte>, p: nat, w: Word)
    ensures Holds(Dumped(flash, p, w, 4), p, Some(w))
  {
    assert Dumped(flash, p, w, 2) == Dumped(flash, p, w, 1)[4 * p + 1 := ByteOf(w, 1)];
    assert Dumped(flash, p, w, 3) == Dumped(flash, p, w, 2)[4 * p + 2 := ByteOf(w, 2)];
  }

  lemma {:induction false} DumpedElsewhere(flash: map<nat, Byte>, p: nat, w: Word, n: nat, a: nat)
    requires n <= 4 && !(4 * p <= a < 4 * p + 4)
    ensures a in Dumped(flash, p, w, n) <==> a in flash
    ensures a in flash ==> Dumped(flash, p, w, n)[a] == flash[a]
  {
    if n > 0 { DumpedElsewhere(flash, p, w, n - 1, a); }
  }

  lemma DumpedKeeps(flash: map<nat, Byte>, p: nat, w: Word, q: nat, v: Option<Word>)
    requires q != p && Holds(flash, q, v)
    ensures Holds(Dumped(flash, p, w, 4), q, v)
  {
    hide Dumped;
    DumpedElsewhere(flash, p, w, 4, 4 * q);
    DumpedElsewhere(flash, p, w, 4, 4 * q + 1);
    DumpedElsewhere(flash, p, w, 4, 4 * q + 2);
    DumpedElsewhere(flash, p, w, 4, 4 * q + 3);
  }

  // ---------------------------------------------------------------- writing the flash

  // The words of the flash written while the keys seen so far were gone through.
  lemma KeyWritten(flash: map<nat, Byte>, words: map<nat, Word>, seen: set<nat>, l2Size: nat, tcdmSize: nat, a: nat)
    requires l2Size <= L2_WORDS && tcdmSize <= TCDM_WORDS && HoldsAll(flash, words, seen, l2Size, tcdmSize)
    requires a in words && forall b :: b in seen ==> b < a
    ensures
      var p := if InL2(a) then a - L2_START + L2Offset(tcdmSize) else a - TCDM_START + HEADER;
      HoldsAll(if InL2(a) || InTcdm(a) then Dumped(flash, p, words[a], 4) else flash,
               words, seen + {a}, l2Size, tcdmSize)
  {
    hide Dumped, Holds;
    var p := if InL2(a) then a - L2_START + L2Offset(tcdmSize) else a - TCDM_START + HEADER;
    var flash' := if InL2(a) || InTcdm(a) then Dumped(flash, p, words[a], 4) else flash;
    forall q ensures Holds(flash', q, FlashWord(words, seen + {a}, l2Size, tcdmSize, q)) {
      KeyPlace(words, seen, l2Size, tcdmSize, a, q);
      assert Holds(flash, q, FlashWord(words, seen, l2Size, tcdmSize, q));
      if InL2(a) || InTcdm(a) {
        if q == p { DumpedHolds(flash, p, words[a]); }
        else { DumpedKeeps(flash, p, words[a], q, FlashWord(words, seen, l2Size, tcdmSize, q)); }
      }
    }
  }

  lemma KeyPlace(words: map<nat, Word>, seen: set<nat>, l2Size: nat, tcdmSize: nat, a: nat, q: nat)
    requires l2Size <= L2_WORDS && tcdmSize <= TCDM_WORDS && a in words && forall b :: b in seen ==> b < a
    ensures
      var p := if InL2(a) then a - L2_START + L2Offset(tcdmSize) else a - TCDM_START + HEADER;
      FlashWord(words, seen + {a}, l2Size, tcdmSize, q)
      == if (InL2(a) || InTcdm(a)) && q == p then Some(words[a]) else FlashWord(words, seen, l2Size, tcdmSize, q)
  {
    hide L2Offset, Hex, HeaderNumber;
    HeaderNumberFits(l2Size, tcdmSize, 0);
  }

  // The sizes as they are counted, key by key.
  lemma CountedOneMore(seen: set<nat>, a: nat)
    requires a !in seen
    ensures L2Size(seen + {a}) == L2Size(seen) + if InL2(a) then 1 else 0
    ensures TcdmSize(seen + {a}) == TcdmSize(seen) + if InTcdm(a) then 1 else 0
  {
    var l, l' := (set b | b in seen && InL2(b)), (set b | b in seen + {a} && InL2(b));
    assert l' == if InL2(a) then l + {a} else l;
    var t, t' := (set b | b in seen && InTcdm(b)), (set b | b in seen + {a} && InTcdm(b));
    assert t' == if InTcdm(a) then t + {a} else t;
  }

  // The keys of the first i turns.
  function Seen(keys: seq<nat>, i: nat): set<nat>
    requires i <= |keys|
  {
    if i == 0 then {} else Seen(keys, i - 1) + {keys[i - 1]}
  }

  ghost predicate Ascending(keys: seq<nat>) { forall i, j :: 0 <= i < j < |keys| ==> keys[i] < keys[j] }

  lemma {:induction false} SeenAre(keys: seq<nat>, i: nat)
    requires i <= |keys|
    ensures forall a :: a in Seen(keys, i) <==> exists j :: 0 <= j < i && keys[j] == a
  {
    if i > 0 { SeenAre(keys, i - 1); }
  }

  lemma SeenIsBefore(keys: seq<nat>, i: nat)
    requires Ascending(keys) && i < |keys|
    ensures forall b :: b in Seen(keys, i) ==> b < keys[i]
  {
    SeenAre(keys, i);
  }

  lemma AllSeen(keys: seq<nat>, words: map<nat, Word>)
    requires forall a :: a in keys <==> a in words
    ensures Seen(keys, |keys|) == words.Keys
  {
    SeenAre(keys, |keys|);
  }

  // The first loop of the script: how many words each part has.
  method CountSizes(words: map<nat, Word>, keys: seq<nat>) returns (l2Size: nat, tcdmSize: nat)
    requires Ascending(keys) && forall a :: a in keys <==> a in words
    ensures l2Size == L2Size(words.Keys) && tcdmSize == TcdmSize(words.Keys)
  {
    hide Ascending, L2Size, TcdmSize, Seen;
    l2Size, tcdmSize := 0, 0;
    NothingSeen(keys);
    var i := 0;
    while i < |keys|
      invariant 0 <= i <= |keys|
      invariant l2Size == L2Size(Seen(keys, i)) && tcdmSize == TcdmSize(Seen(keys, i))
    {
      var addr := keys[i];
      SeenIsBefore(keys, i);
      CountedOneMore(Seen(keys, i), addr);
      SeenOneMore(keys, i);
      if InL2(addr) {
        l2Size := l2Size + 1;
      }
      if InTcdm(addr) {
        tcdmSize := tcdmSize + 1;
      }
      i := i + 1;
    }
    AllSeen(keys, words);
  }

  lemma NothingSeen(keys: seq<nat>)
    ensures Seen(keys, 0) == {} && L2Size({}) == 0 && TcdmSize({}) == 0
  {
    assert (set a | a in {} && InL2(a)) == {} && (set a | a in {} && InTcdm(a)) == {};
  }

  lemma SeenOneMore(keys: seq<nat>, i: nat)
    requires i < |keys|
    ensures Seen(keys, i + 1) == Seen(keys, i) + {keys[i]}
  {
  }

  function HeaderWord(l2Size: nat, tcdmSize: nat, n: nat, p: nat): Option<Word>
    requires l2Size <= L2_WORDS && tcdmSize <= TCDM_WORDS && n <= HEADER
  {
    if p < n then FlashWord(map[], {}, l2Size, tcdmSize, p) else None
  }

  // The header after n of its words.
  ghost predicate HeaderHolds(flash: map<nat, Byte>, l2Size: nat, tcdmSize: nat, n: nat)
    requires l2Size <= L2_WORDS && tcdmSize <= TCDM_WORDS && n <= HEADER
  {
    forall p: nat :: Holds(flash, p, HeaderWord(l2Size, tcdmSize, n, p))
  }

  // The script from where it knows the words: header, then data.
  method Pack(words: map<nat, Word>, keys: seq<nat>) returns (flash: map<nat, Byte>)
    requires Ascending(keys) && forall a :: a in keys <==> a in words
    ensures IsPacked(flash, words)
  {
    hide Ascending, L2Size, TcdmSize, Seen, HoldsAll, HeaderHolds, Dumped, Hex, HeaderNumber, L2Offset;
    SizesFit(words.Keys);
    var l2Size, tcdmSize := CountSizes(words, keys);
    flash := map[];
    EmptyHeader(l2Size, tcdmSize);
    var n := 0;
    while n < HEADER
      invariant 0 <= n <= HEADER && HeaderHolds(flash, l2Size, tcdmSize, n)
    {
      HeaderNumberFits(l2Size, tcdmSize, n);
      HeaderWritten(flash, l2Size, tcdmSize, n);
      flash := DumpBytes(flash, n, Hex(HeaderNumber(l2Size, tcdmSize, n)));
      n := n + 1;
    }
    HeaderIsStart(flash, words, l2Size, tcdmSize);
    NothingSeen(keys);
    var i := 0;
    while i < |keys|
      invariant 0 <= i <= |keys| && HoldsAll(flash, words, Seen(keys, i), l2Size, tcdmSize)
    {
      var addr := keys[i];
      SeenIsBefore(keys, i);
      SeenOneMore(keys, i);
      KeyWritten(flash, words, Seen(keys, i), l2Size, tcdmSize, addr);
      NotInBoth(addr);
      if InL2(addr) {
        flash := DumpBytes(flash, addr - L2_START + L2Offset(tcdmSize), words[addr]);
      }
      if InTcdm(addr) {
        flash := DumpBytes(flash, addr - TCDM_START + HEADER, words[addr]);
      }
      i := i + 1;
    }
    AllSeen(keys, words);
  }

  lemma NotInBoth(a: nat)
    ensures !(InL2(a) && InTcdm(a))
  {
  }

  lemma EmptyHeader(l2Size: nat, tcdmSize: nat)
    requires l2Size <= L2_WORDS && tcdmSize <= TCDM_WORDS
    ensures HeaderHolds(map[], l2Size, tcdmSize, 0)
  {
  }

  lemma HeaderWritten(flash: map<nat, Byte>, l2Size: nat, tcdmSize: nat, n: nat)
    requires l2Size <= L2_WORDS && tcdmSize <= TCDM_WORDS && n < HEADER && HeaderHolds(flash, l2Size, tcdmSize, n)
    ensures HeaderNumber(l2Size, tcdmSize, n) < 0x1_0000_0000
    ensures HeaderHolds(Dumped(flash, n, Hex(HeaderNumber(l2Size, tcdmSize, n)), 4), l2Size, tcdmSize, n + 1)
  {
    hide Dumped, Holds, Hex, HeaderNumber, L2Offset;
    HeaderNumberFits(l2Size, tcdmSize, n);
    var w := Hex(HeaderNumber(l2Size, tcdmSize, n));
    var r, next := Dumped(flash, n, w, 4), n + 1;
    forall p: nat ensures Holds(r, p, HeaderWord(l2Size, tcdmSize, next, p)) {
      assert Holds(flash, p, HeaderWord(l2Size, tcdmSize, n, p));
      if p == n { DumpedHolds(flash, n, w); }
      else { DumpedKeeps(flash, n, w, p, HeaderWord(l2Size, tcdmSize, n, p)); }
    }
  }

  lemma HeaderIsStart(flash: map<nat, Byte>, words: map<nat, Word>, l2Size: nat, tcdmSize: nat)
    requires l2Size <= L2_WORDS && tcdmSize <= TCDM_WORDS && HeaderHolds(flash, l2Size, tcdmSize, HEADER)
    ensures HoldsAll(flash, words, {}, l2Size, tcdmSize)
  {
    hide Holds, Hex, HeaderNumber, L2Offset;
    forall p: nat ensures Holds(flash, p, FlashWord(words, {}, l2Size, tcdmSize, p)) {
      assert Holds(flash, p, HeaderWord(l2Size, tcdmSize, HEADER, p));
    }
  }

  // ---------------------------------------------------------------- the boot loader

  // A word over SPI; bytes that were never written read as blank.
  function ReadWord(flash: map<nat, Byte>, blank: Byte, addr: nat): Word {
    Word(ByteOr(flash, addr, blank), ByteOr(flash, addr + 1, blank),
         ByteOr(flash, addr + 2, blank), ByteOr(flash, addr + 3, blank))
  }

  function At(mem: map<nat, Word>, a: nat): Word { if a in mem then mem[a] else ZERO }

  const ADDRESSES: nat := 0x100_0000 // the flash takes 24 bits of an address

  // Word k of a part that is copied block by block from a byte address.
  function BlockWord(flash: map<nat, Byte>, blank: Byte, start: nat, k: nat): Word {
    ReadWord(flash, blank, (start + 4 * BLOCK * (k / BLOCK)) % ADDRESSES + 4 * (k % BLOCK))
  }

  function Header(flash: map<nat, Byte>, blank: Byte, i: nat): nat { Number(ReadWord(flash, blank, 4 * i)) }

  // A memory after n words have been read into it, and after whole blocks have been.
  function Filled(flash: map<nat, Byte>, blank: Byte, mem: map<nat, Word>, addr: nat, dest: nat, n: nat, a: nat): Word {
    if dest <= a < dest + n then ReadWord(flash, blank, addr + 4 * (a - dest)) else At(mem, a)
  }

  function Copied(flash: map<nat, Byte>, blank: Byte, mem: map<nat, Word>,
                  start: nat, dest: nat, blocks: nat, a: nat): Word {
    if dest <= a < dest + BLOCK * blocks then BlockWord(flash, blank, start, a - dest) else At(mem, a)
  }

  // The memories after the loader has run: first the instructions are copied, then the data.
  function Loaded(flash: map<nat, Byte>, blank: Byte, mem: map<nat, Word>, a: nat): Word {
    var instr, data := Header(flash, blank, 1) / 4, Header(flash, blank, 5) / 4;
    if data <= a < data + BLOCK * Header(flash, blank, 7) then
      BlockWord(flash, blank, Header(flash, blank, 4), a - data)
    else if instr <= a < instr + BLOCK * Header(flash, blank, 3) then
      BlockWord(flash, blank, Header(flash, blank, 0), a - instr)
    else At(mem, a)
  }

  lemma AtUpdated(mem: map<nat, Word>, x: nat, w: Word, a: nat)
    ensures At(mem[x := w], a) == if a == x then w else At(mem, a)
  {
  }

  class Loader {
    var mem: map<nat, Word>

    constructor (mem: map<nat, Word>)
      ensures this.mem == mem
    {
      this.mem := mem;
    }

    // spi_read_fifo
    method ReadFifo(flash: map<nat, Byte>, blank: Byte, addr: nat, dest: nat, numWords: nat)
      modifies this
      ensures forall a: nat :: At(mem, a) == Filled(flash, blank, old(mem), addr, dest, numWords, a)
    {
      hide ReadWord, At;
      var i := 0;
      while i < numWords
        invariant 0 <= i <= numWords
        invariant forall a: nat :: At(mem, a) == Filled(flash, blank, old(mem), addr, dest, i, a)
      {
        ghost var was := mem;
        mem := mem[dest + i := ReadWord(flash, blank, addr + 4 * i)];
        forall a: nat
          ensures At(mem, a) == if a == dest + i then ReadWord(flash, blank, addr + 4 * i) else At(was, a)
        {
          AtUpdated(was, dest + i, ReadWord(flash, blank, addr + 4 * i), a);
        }
        i := i + 1;
      }
    }

    // The two copying loops of main
    method CopyBlocks(flash: map<nat, Byte>, blank: Byte, start: nat, dest: nat, blocks: nat)
      modifies this
      ensures forall a: nat :: At(mem, a) == Copied(flash, blank, old(mem), start, dest, blocks, a)
    {
      hide ReadWord, At, BlockWord;
      var addr, pointer := start, dest;
      var i := 0;
      while i < blocks
        invariant 0 <= i <= blocks && addr == start + 4 * BLOCK * i && pointer == dest + BLOCK * i
        invariant forall a: nat :: At(mem, a) == Copied(flash, blank, old(mem), start, dest, i, a)
      {
        ghost var was := mem;
        ReadFifo(flash, blank, addr % ADDRESSES, pointer, BLOCK);
        forall a: nat | pointer <= a < pointer + BLOCK
          ensures At(mem, a) == BlockWord(flash, blank, start, a - dest)
        {
          InBlock(flash, blank, start, i, a - pointer);
        }
        pointer := pointer + 0x400;
        addr := addr + 0x1000;
        i := i + 1;
      }
    }

    // main, from the header to the jump
    method Load(flash: map<nat, Byte>, blank: Byte)
      modifies this
      ensures forall a: nat :: At(mem, a) == Loaded(flash, blank, old(mem), a)
    {
      hide ReadWord, At, BlockWord, Header;
      var instrStart := Header(flash, blank, 0);
      var instr := Header(flash, blank, 1) / 4;
      var instrBlocks := Header(flash, blank, 3);
      var dataStart := Header(flash, blank, 4);
      var data := Header(flash, blank, 5) / 4;
      var dataBlocks := Header(flash, blank, 7);
      CopyBlocks(flash, blank, instrStart, instr, instrBlocks);
      CopyBlocks(flash, blank, dataStart, data, dataBlocks);
    }
  }

  lemma InBlock(flash: map<nat, Byte>, blank: Byte, start: nat, i: nat, k: nat)
    requires k < BLOCK
    ensures BlockWord(flash, blank, start, BLOCK * i + k)
            == ReadWord(flash, blank, (start + 4 * BLOCK * i) % ADDRESSES + 4 * k)
  {
    hide ReadWord;
    assert (BLOCK * i + k) / BLOCK == i && (BLOCK * i + k) % BLOCK == k;
  }

  // ---------------------------------------------------------------- what comes back

  lemma HeldReadsBack(flash: map<nat, Byte>, blank: Byte, p: nat, w: Word)
    requires Holds(flash, p, Some(w))
    ensures ReadWord(flash, blank, 4 * p) == w
  {
  }

  lemma HeaderReadsBack(flash: map<nat, Byte>, words: map<nat, Word>, blank: Byte, i: nat)
    requires IsPacked(flash, words) && i < HEADER
    ensures Header(flash, blank, i) == HeaderNumber(L2Size(words.Keys), TcdmSize(words.Keys), i)
  {
    hide Holds, Hex, Number, HeaderNumber, L2Offset, ReadWord, L2Size, TcdmSize;
    SizesFit(words.Keys);
    HeaderNumberFits(L2Size(words.Keys), TcdmSize(words.Keys), i);
    var n := HeaderNumber(L2Size(words.Keys), TcdmSize(words.Keys), i);
    assert Holds(flash, i, FlashWord(words, words.Keys, L2Size(words.Keys), TcdmSize(words.Keys), i));
    HeldReadsBack(flash, blank, i, Hex(n));
    NumberOfHex(n);
  }

  // Word k of a part that starts at word p of the flash, below the end of the address range.
  lemma BlockWordReads(flash: map<nat, Byte>, blank: Byte, p: nat, k: nat)
    requires 4 * (p + k) < ADDRESSES
    ensures BlockWord(flash, blank, 4 * p, k) == ReadWord(flash, blank, 4 * (p + k))
  {
    hide ReadWord;
    assert BLOCK * (k / BLOCK) + k % BLOCK == k;
  }

  // Every word of a memory comes from its place in the flash, if a block reaches it, or is as before.
  lemma LoadedL2(flash: map<nat, Byte>, words: map<nat, Word>, blank: Byte, mem: map<nat, Word>, a: nat)
    requires IsPacked(flash, words) && InL2(a)
    ensures
      var k := a - L2_START;
      Loaded(flash, blank, mem, a) ==
      if k < BLOCK * Blocks(L2Size(words.Keys)) then ReadWord(flash, blank, 4 * (L2Offset(TcdmSize(words.Keys)) + k))
      else At(mem, a)
  {
    hide ReadWord, BlockWord, L2Size, TcdmSize, IsPacked, Header;
    SizesFit(words.Keys);
    forall i: nat | i < HEADER
      ensures Header(flash, blank, i) == HeaderNumber(L2Size(words.Keys), TcdmSize(words.Keys), i)
    {
      HeaderReadsBack(flash, words, blank, i);
    }
    HeaderNumberFits(L2Size(words.Keys), TcdmSize(words.Keys), 0);
    BlockWordReads(flash, blank, L2Offset(TcdmSize(words.Keys)), a - L2_START);
  }

  lemma LoadedTcdm(flash: map<nat, Byte>, words: map<nat, Word>, blank: Byte, mem: map<nat, Word>, a: nat)
    requires IsPacked(flash, words) && InTcdm(a)
    ensures
      var k := a - TCDM_START;
      Loaded(flash, blank, mem, a) ==
      if k < BLOCK * Blocks(TcdmSize(words.Keys)) then ReadWord(flash, blank, 4 * (HEADER + k)) else At(mem, a)
  {
    hide ReadWord, BlockWord, L2Size, TcdmSize, IsPacked, Header;
    SizesFit(words.Keys);
    forall i: nat | i < HEADER
      ensures Header(flash, blank, i) == HeaderNumber(L2Size(words.Keys), TcdmSize(words.Keys), i)
    {
      HeaderReadsBack(flash, words, blank, i);
    }
    BlockWordReads(flash, blank, HEADER, a - TCDM_START);
  }

  // ---------------------------------------------------------------- the round trip

  // The words of an image that come back: those a block reaches, and of the instructions those that
  // no word of the data is written over.
  predicate ComesBack(keys: set<nat>, a: nat) {
    var off := L2Offset(TcdmSize(keys));
    (InL2(a) ==>
       && a - L2_START < BLOCK * Blocks(L2Size(keys))
       && !(var d := TCDM_START + off + (a - L2_START) - HEADER; InTcdm(d) && d in keys))
    && (InTcdm(a) ==> a - TCDM_START < BLOCK * Blocks(TcdmSize(keys)))
  }

  lemma FlashWordReads(flash: map<nat, Byte>, words: map<nat, Word>, blank: Byte, p: nat)
    requires IsPacked(flash, words)
    ensures L2Size(words.Keys) <= L2_WORDS && TcdmSize(words.Keys) <= TCDM_WORDS
    ensures
      var w := FlashWord(words, words.Keys, L2Size(words.Keys), TcdmSize(words.Keys), p);
      w.Some? ==> ReadWord(flash, blank, 4 * p) == w.value
  {
    hide Holds, ReadWord, L2Size, TcdmSize, L2Offset, Hex;
    SizesFit(words.Keys);
    var w := FlashWord(words, words.Keys, L2Size(words.Keys), TcdmSize(words.Keys), p);
    assert Holds(flash, p, w);
    if w.Some? { HeldReadsBack(flash, blank, p, w.value); }
  }

  // Whatever its words are, an image brings back each of those, into every memory.
  lemma WordComesBack(flash: map<nat, Byte>, words: map<nat, Word>, blank: Byte, mem: map<nat, Word>, a: nat)
    requires IsPacked(flash, words) && a in words && (InL2(a) || InTcdm(a)) && ComesBack(words.Keys, a)
    ensures Loaded(flash, blank, mem, a) == words[a]
  {
    hide Loaded, ReadWord, L2Size, TcdmSize, IsPacked, L2Offset, Hex;
    NotInBoth(a);
    SizesFit(words.Keys);
    HeaderNumberFits(L2Size(words.Keys), TcdmSize(words.Keys), 0);
    if InL2(a) {
      LoadedL2(flash, words, blank, mem, a);
      FlashWordReads(flash, words, blank, L2Offset(TcdmSize(words.Keys)) + (a - L2_START));
    } else {
      LoadedTcdm(flash, words, blank, mem, a);
      FlashWordReads(flash, words, blank, HEADER + (a - TCDM_START));
    }
  }

  // An image with only one word that is not zero.
  function OneWord(keys: set<nat>, a: nat): map<nat, Word> {
    map k | k in keys :: if k == a then Word(0, 0, 0, 1) else ZERO
  }

  // And no other: with the same addresses there is an image that does not bring the word back, into
  // a memory of zeros.
  lemma WordIsLost(keys: set<nat>, a: nat, flash: map<nat, Byte>, blank: Byte)
    requires a in keys && (InL2(a) || InTcdm(a)) && !ComesBack(keys, a)
    requires IsPacked(flash, OneWord(keys, a))
    ensures a in OneWord(keys, a) && Loaded(flash, blank, map[], a) != OneWord(keys, a)[a]
  {
    hide Loaded, ReadWord, L2Size, TcdmSize, IsPacked, L2Offset, Hex;
    var words := OneWord(keys, a);
    assert words.Keys == keys;
    NotInBoth(a);
    SizesFit(words.Keys);
    HeaderNumberFits(L2Size(words.Keys), TcdmSize(words.Keys), 0);
    if InL2(a) {
      LoadedL2(flash, words, blank, map[], a);
      FlashWordReads(flash, words, blank, L2Offset(TcdmSize(words.Keys)) + (a - L2_START));
    } else {
      LoadedTcdm(flash, words, blank, map[], a);
    }
  }

  // Three images that lose a word: one of a single instruction a block away from the start, one of a
  // single data word there, and one of two words, where the data word is written over the instruction.
  lemma SparseImages()
    ensures !ComesBack({BLOCK}, BLOCK) && InL2(BLOCK)
    ensures !ComesBack({TCDM_START + BLOCK}, TCDM_START + BLOCK) && InTcdm(TCDM_START + BLOCK)
    ensures !ComesBack({0, TCDM_START + BLOCK - HEADER}, 0)
  {
    var far := TCDM_START + BLOCK;
    SizesOf({BLOCK}, {BLOCK}, {});
    SizesOf({far}, {}, {far});
    SizesOf({0, far - HEADER}, {0}, {far - HEADER});
    assert L2Offset(1) == BLOCK;
  }

  lemma SizesOf(keys: set<nat>, l2: set<nat>, tcdm: set<nat>)
    requires keys == l2 + tcdm && (forall a :: a in l2 ==> InL2(a)) && (forall a :: a in tcdm ==> InTcdm(a))
    ensures L2Size(keys) == |l2| && TcdmSize(keys) == |tcdm|
  {
    assert (set a | a in keys && InL2(a)) == l2;
    assert (set a | a in keys && InTcdm(a)) == tcdm;
  }

  // Each part of the image is a piece from the start of its memory.
  predicate Dense(keys: set<nat>) {
    && (forall a :: L2_START <= a < L2_START + L2_WORDS ==> (a in keys <==> a < L2_START + L2Size(keys)))
    && (forall a :: TCDM_START <= a < TCDM_START + TCDM_WORDS ==> (a in keys <==> a < TCDM_START + TcdmSize(keys)))
  }

  lemma BlocksReach(size: nat)
    ensures size < BLOCK * Blocks(size) <= size + BLOCK
  {
  }

  // The regions of the flash are apart: the header, then the data, then the instructions.
  lemma RegionsApart(keys: set<nat>, a: nat, b: nat)
    requires Dense(keys) && a in keys && InTcdm(a) && b in keys && InL2(b)
    ensures HEADER <= HEADER + (a - TCDM_START) < L2Offset(TcdmSize(keys)) <= L2Offset(TcdmSize(keys)) + (b - L2_START)
  {
    hide L2Size, TcdmSize, L2Offset;
    SizesFit(keys);
    HeaderNumberFits(L2Size(keys), TcdmSize(keys), 0);
  }

  // A dense image comes back whole: every word at its own address.
  lemma DenseImageComesBack(flash: map<nat, Byte>, words: map<nat, Word>, blank: Byte, mem: map<nat, Word>, a: nat)
    requires IsPacked(flash, words) && Dense(words.Keys) && a in words && (InL2(a) || InTcdm(a))
    ensures Loaded(flash, blank, mem, a) == words[a]
  {
    hide Loaded, L2Size, TcdmSize, IsPacked, L2Offset, Blocks;
    SizesFit(words.Keys);
    HeaderNumberFits(L2Size(words.Keys), TcdmSize(words.Keys), 0);
    BlocksReach(L2Size(words.Keys));
    BlocksReach(TcdmSize(words.Keys));
    WordComesBack(flash, words, blank, mem, a);
  }

  // The loader writes whole blocks, one at least: it stays inside a memory exactly when the image
  // does not fill it.
  lemma StaysInside(keys: set<nat>)
    ensures BLOCK * Blocks(L2Size(keys)) <= L2_WORDS <==> L2Size(keys) < L2_WORDS
    ensures BLOCK * Blocks(TcdmSize(keys)) <= TCDM_WORDS <==> TcdmSize(keys) < TCDM_WORDS
  {
    hide L2Size, TcdmSize;
    SizesFit(keys);
  }

  function FirstWords(lo: nat, n: nat): set<nat> { if n == 0 then {} else FirstWords(lo, n - 1) + {lo + n - 1} }

  lemma {:induction false} FirstWordsSize(lo: nat, n: nat)
    ensures |FirstWords(lo, n)| == n && forall a :: a in FirstWords(lo, n) <==> lo <= a < lo + n
  {
    if n > 0 { FirstWordsSize(lo, n - 1); }
  }

  // An image that fills the instruction memory, and is loaded a block beyond it.
  lemma FullImageOverruns()
    ensures BLOCK * Blocks(L2Size(FirstWords(L2_START, L2_WORDS))) == L2_WORDS + BLOCK
  {
    hide FirstWords;
    FirstWordsSize(L2_START, L2_WORDS);
    SizesOf(FirstWords(L2_START, L2_WORDS), FirstWords(L2_START, L2_WORDS), {});
  }

  // ---------------------------------------------------------------- byte by byte

  // The number in four bytes of the flash, most significant byte first.
  function BigEndian(flash: map<nat, Byte>, addr: nat): nat {
    ByteOr(flash, addr, 0) * 0x100_0000 + ByteOr(flash, addr + 1, 0) * 0x1_0000
    + ByteOr(flash, addr + 2, 0) * 0x100 + ByteOr(flash, addr + 3, 0)
  }

  lemma HeldIsBigEndian(flash: map<nat, Byte>, p: nat, n: nat)
    requires n < 0x1_0000_0000 && Holds(flash, p, Some(Hex(n)))
    ensures BigEndian(flash, 4 * p) == n
  {
    NumberOfHex(n);
    hide Hex;
  }

  lemma HeaderIs(flash: map<nat, Byte>, words: map<nat, Word>, i: nat)
    requires IsPacked(flash, words) && i < HEADER
    ensures BigEndian(flash, 4 * i) == HeaderNumber(L2Size(words.Keys), TcdmSize(words.Keys), i)
  {
    hide Holds, L2Size, TcdmSize, L2Offset, Hex, BigEndian;
    SizesFit(words.Keys);
    HeaderNumberFits(L2Size(words.Keys), TcdmSize(words.Keys), i);
    assert Holds(flash, i, FlashWord(words, words.Keys, L2Size(words.Keys), TcdmSize(words.Keys), i));
    HeldIsBigEndian(flash, i, HeaderNumber(L2Size(words.Keys), TcdmSize(words.Keys), i));
  }

  lemma SizesAre(words: map<nat, Word>)
    ensures |set a | a in words && 0 <= a < 0x2000| == L2Size(words.Keys)
    ensures |set a | a in words && 0x4_0000 <= a < 0x4_1800| == TcdmSize(words.Keys)
  {
    assert (set a | a in words && 0 <= a < 0x2000) == set a | a in words.Keys && InL2(a);
    assert (set a | a in words && 0x4_0000 <= a < 0x4_1800) == set a | a in words.Keys && InTcdm(a);
  }

  lemma HeaderNumbers(code: nat, data: nat)
    ensures HeaderNumber(code, data, 0) % 4096 == 0
    ensures 32 + 4 * data < HeaderNumber(code, data, 0) <= 32 + 4 * data + 4096
    ensures HeaderNumber(code, data, 1) == 0 && HeaderNumber(code, data, 2) == 4 * code
    ensures HeaderNumber(code, data, 3) == 4 * code / 4096 + 1
    ensures HeaderNumber(code, data, 4) == 32 && HeaderNumber(code, data, 5) == 0x10_0000
    ensures HeaderNumber(code, data, 6) == 4 * data && HeaderNumber(code, data, 7) == 4 * data / 4096 + 1
  {
  }

  // The header: for the instructions where they are in the flash, the first whole block after the data,
  // then their address, their size in bytes and the number of blocks to copy, one more than are full; and
  // the same for the data, which come right after the header.
  lemma HeaderLayout(flash: map<nat, Byte>, words: map<nat, Word>)
    requires IsPacked(flash, words)
    ensures
      var code, data := |set a | a in words && 0 <= a < 0x2000|, |set a | a in words && 0x4_0000 <= a < 0x4_1800|;
      && BigEndian(flash, 0) % 4096 == 0 && 32 + 4 * data < BigEndian(flash, 0) <= 32 + 4 * data + 4096
      && BigEndian(flash, 4) == 0 && BigEndian(flash, 8) == 4 * code
      && BigEndian(flash, 12) == 4 * code / 4096 + 1
      && BigEndian(flash, 16) == 32 && BigEndian(flash, 20) == 0x10_0000 && BigEndian(flash, 24) == 4 * data
      && BigEndian(flash, 28) == 4 * data / 4096 + 1
  {
    hide IsPacked, BigEndian, HeaderNumber, L2Size, TcdmSize;
    forall i: nat | i < HEADER
      ensures BigEndian(flash, 4 * i) == HeaderNumber(L2Size(words.Keys), TcdmSize(words.Keys), i)
    {
      HeaderIs(flash, words, i);
    }
    assert BigEndian(flash, 4 * 1) == HeaderNumber(L2Size(words.Keys), TcdmSize(words.Keys), 1);
    SizesAre(words);
    HeaderNumbers(L2Size(words.Keys), TcdmSize(words.Keys));
  }

  // Byte i of a word in memory, which is little-endian.
  function MemoryByte(w: Word, i: nat): nat
    requires i < 4
  {
    var n := Number(w);
    if i == 0 then n % 0x100 else if i == 1 then n / 0x100 % 0x100
    else if i == 2 then n / 0x100 / 0x100 % 0x100 else n / 0x100 / 0x100 / 0x100
  }

  lemma LowestByte(h: nat, b: Byte)
    ensures (h * 0x100 + b) / 0x100 == h && (h * 0x100 + b) % 0x100 == b
  {
  }

  lemma MemoryByteIs(w: Word)
    ensures MemoryByte(w, 0) == w.byte3 && MemoryByte(w, 1) == w.byte2
    ensures MemoryByte(w, 2) == w.byte1 && MemoryByte(w, 3) == w.byte0
  {
    var h1 := w.byte0 * 0x100 + w.byte1;
    var h2 := h1 * 0x100 + w.byte2;
    assert Number(w) == h2 * 0x100 + w.byte3;
    LowestByte(w.byte0, w.byte1);
    LowestByte(h1, w.byte2);
    LowestByte(h2, w.byte3);
    hide Number;
  }

  // Every byte of a dense image comes back at its own address.
  lemma ImageBytesComeBack(bytes: map<nat, Byte>, words: map<nat, Word>, flash: map<nat, Byte>, blank: Byte,
                           mem: map<nat, Word>, a: nat)
    requires AreWordsOf(words, bytes) && IsPacked(flash, words) && Dense(words.Keys)
    requires a in bytes && (InL2(a / 4) || InTcdm(a / 4))
    ensures MemoryByte(Loaded(flash, blank, mem, a / 4), a % 4) == bytes[a]
  {
    hide IsPacked, Dense, Loaded, Number;
    var w, i := a / 4, a % 4;
    assert a == 4 * w + i && HasWord(bytes, w);
    DenseImageComesBack(flash, words, blank, mem, w);
    MemoryByteIs(words[w]);
    hide MemoryByte;
  }
}
