// aes_cbc.c: cipher block chaining (section 6.2 of NIST SP 800-38A) over whole blocks of a byte
// array; a part of a block at the end is left alone. Words are loaded most significant byte first.
module Cbc {
  import opened Aes

  // ---------------------------------------------------------------- blocks

  function Encipher(ks: seq<Word>, rounds: nat, s: State): State
    requires 4 * (rounds + 1) <= |ks|
  {
    Encrypted(ks, rounds, rounds, s)
  }

  function Decipher(ks: seq<Word>, rounds: nat, s: State): State
    requires 4 * (rounds + 1) <= |ks|
  {
    Decrypted(ks, rounds, rounds, s)
  }

  function EncryptBlocks(ks: seq<Word>, rounds: nat, iv: State, plain: seq<State>): (r: seq<State>)
    requires 4 * (rounds + 1) <= |ks|
    ensures |r| == |plain|
    decreases |plain|
  {
    if plain == [] then [] else
      var c := Encipher(ks, rounds, AddState(plain[0], iv));
      [c] + EncryptBlocks(ks, rounds, c, plain[1..])
  }

  function DecryptBlocks(ks: seq<Word>, rounds: nat, iv: State, cipher: seq<State>): (r: seq<State>)
    requires 4 * (rounds + 1) <= |ks|
    ensures |r| == |cipher|
    decreases |cipher|
  {
    if cipher == [] then [] else
      [AddState(Decipher(ks, rounds, cipher[0]), iv)] + DecryptBlocks(ks, rounds, cipher[0], cipher[1..])
  }

  // The chaining value a call leaves for the next one.
  function Chained(iv: State, cipher: seq<State>): State { if cipher == [] then iv else cipher[|cipher| - 1] }

  lemma NothingChained(iv: State)
    ensures Chained(iv, []) == iv
  {
  }

  lemma ChainedOn(iv: State, c: State, rest: seq<State>)
    ensures Chained(iv, [c] + rest) == Chained(c, rest)
  {
  }

  lemma {:induction false} BlocksComeBack(ks: seq<Word>, rounds: nat, iv: State, plain: seq<State>)
    requires 4 * (rounds + 1) <= |ks|
    ensures DecryptBlocks(Converted(ks, rounds), rounds, iv, EncryptBlocks(ks, rounds, iv, plain)) == plain
    decreases |plain|
  {
    hide AddState, Encrypted, Decrypted, Converted;
    if plain != [] {
      var x := AddState(plain[0], iv);
      var c := Encipher(ks, rounds, x);
      DecryptUndoesEncrypt(ks, rounds, x);
      AddTwice(plain[0], iv);
      BlocksComeBack(ks, rounds, c, plain[1..]);
      var cipher := EncryptBlocks(ks, rounds, iv, plain);
      assert cipher[1..] == EncryptBlocks(ks, rounds, c, plain[1..]);
    }
  }

  lemma FirstBlock(ks: seq<Word>, rounds: nat, iv: State, plain: seq<State>)
    requires 4 * (rounds + 1) <= |ks|
    ensures
      if plain == [] then EncryptBlocks(ks, rounds, iv, plain) == [] else
        var c := Encipher(ks, rounds, AddState(plain[0], iv));
        EncryptBlocks(ks, rounds, iv, plain) == [c] + EncryptBlocks(ks, rounds, c, plain[1..])
  {
  }

  // Encrypting in two calls is encrypting at once.
  lemma {:induction false} EncryptBlocksInTwo(ks: seq<Word>, rounds: nat, iv: State, a: seq<State>, b: seq<State>)
    requires 4 * (rounds + 1) <= |ks|
    ensures
      var c := EncryptBlocks(ks, rounds, iv, a);
      EncryptBlocks(ks, rounds, iv, a + b) == c + EncryptBlocks(ks, rounds, Chained(iv, c), b)
    decreases |a|
  {
    hide AddState, Encipher, EncryptBlocks, Chained;
    FirstBlock(ks, rounds, iv, a);
    FirstBlock(ks, rounds, iv, a + b);
    if a == [] {
      assert a + b == b;
      NothingChained(iv);
    } else {
      var c := Encipher(ks, rounds, AddState(a[0], iv));
      var rest := EncryptBlocks(ks, rounds, c, a[1..]);
      EncryptBlocksInTwo(ks, rounds, c, a[1..], b);
      ChainedOn(iv, c, rest);
      assert (a + b)[1..] == a[1..] + b;
      var more := EncryptBlocks(ks, rounds, Chained(c, rest), b);
      assert ([c] + rest) + more == [c] + (rest + more);
    }
  }

  lemma {:induction false} DecryptBlocksInTwo(ks: seq<Word>, rounds: nat, iv: State, a: seq<State>, b: seq<State>)
    requires 4 * (rounds + 1) <= |ks|
    ensures DecryptBlocks(ks, rounds, iv, a + b)
            == DecryptBlocks(ks, rounds, iv, a) + DecryptBlocks(ks, rounds, Chained(iv, a), b)
    decreases |a|
  {
    hide AddState, Decipher;
    if a == [] {
      assert a + b == b;
    } else {
      DecryptBlocksInTwo(ks, rounds, a[0], a[1..], b);
      ChainedOn(iv, a[0], a[1..]);
      assert [a[0]] + a[1..] == a;
      hide Chained;
      assert (a + b)[1..] == a[1..] + b;
    }
  }

  // ---------------------------------------------------------------- bytes

  function Block(b: seq<Byte>): State
    requires |b| == 16
  {
    [Column(b[0], b[1], b[2], b[3]), Column(b[4], b[5], b[6], b[7]),
     Column(b[8], b[9], b[10], b[11]), Column(b[12], b[13], b[14], b[15])]
  }

  function Unblock(s: State): (b: seq<Byte>)
    ensures |b| == 16
  {
    [s[0].a0, s[0].a1, s[0].a2, s[0].a3, s[1].a0, s[1].a1, s[1].a2, s[1].a3,
     s[2].a0, s[2].a1, s[2].a2, s[2].a3, s[3].a0, s[3].a1, s[3].a2, s[3].a3]
  }

  lemma BlockOfUnblock(s: State)
    ensures Block(Unblock(s)) == s
  {
  }

  lemma UnblockOfBlock(b: seq<Byte>)
    requires |b| == 16
    ensures Unblock(Block(b)) == b
  {
  }

  // The whole blocks of a message.
  function Blocks(m: seq<Byte>): (r: seq<State>)
    ensures |r| == |m| / 16
  {
    if |m| < 16 then [] else [Block(m[..16])] + Blocks(m[16..])
  }

  function Unblocks(s: seq<State>): (m: seq<Byte>)
    ensures |m| == 16 * |s|
  {
    if s == [] then [] else Unblock(s[0]) + Unblocks(s[1..])
  }

  lemma {:induction false} BlocksOfUnblocks(s: seq<State>)
    ensures Blocks(Unblocks(s)) == s
  {
    hide Block, Unblock;
    if s != [] {
      BlockOfUnblock(s[0]);
      BlocksOfUnblocks(s[1..]);
      assert Unblocks(s)[..16] == Unblock(s[0]);
      assert Unblocks(s)[16..] == Unblocks(s[1..]);
    }
  }

  lemma {:induction false} UnblocksOfBlocks(m: seq<Byte>)
    ensures Unblocks(Blocks(m)) == m[..16 * (|m| / 16)]
  {
    hide Block, Unblock;
    if |m| >= 16 {
      UnblockOfBlock(m[..16]);
      UnblocksOfBlocks(m[16..]);
      assert 16 * (|m| / 16) == 16 + 16 * (|m[16..]| / 16);
      assert m[..16 * (|m| / 16)] == m[..16] + m[16..][..16 * (|m[16..]| / 16)];
      assert Blocks(m)[1..] == Blocks(m[16..]);
    }
  }

  lemma {:induction false} BlocksAdd(a: seq<Byte>, b: seq<Byte>, k: nat)
    requires |a| == 16 * k
    ensures Blocks(a + b) == Blocks(a) + Blocks(b)
  {
    hide Block;
    if k == 0 {
      assert a + b == b;
    } else {
      assert (a + b)[..16] == a[..16] && (a + b)[16..] == a[16..] + b;
      BlocksAdd(a[16..], b, k - 1);
      assert [Block(a[..16])] + (Blocks(a[16..]) + Blocks(b)) == ([Block(a[..16])] + Blocks(a[16..])) + Blocks(b);
    }
  }

  lemma {:induction false} UnblocksAdd(s: seq<State>, t: seq<State>)
    ensures Unblocks(s + t) == Unblocks(s) + Unblocks(t)
  {
    hide Unblock;
    if s == [] {
      assert s + t == t;
    } else {
      assert (s + t)[1..] == s[1..] + t;
      UnblocksAdd(s[1..], t);
    }
  }

  // ---------------------------------------------------------------- messages

  function EncryptMessage(ks: seq<Word>, rounds: nat, iv: seq<Byte>, m: seq<Byte>): seq<Byte>
    requires 4 * (rounds + 1) <= |ks| && |iv| == 16
  {
    Unblocks(EncryptBlocks(ks, rounds, Block(iv), Blocks(m)))
  }

  function DecryptMessage(ks: seq<Word>, rounds: nat, iv: seq<Byte>, m: seq<Byte>): seq<Byte>
    requires 4 * (rounds + 1) <= |ks| && |iv| == 16
  {
    Unblocks(DecryptBlocks(ks, rounds, Block(iv), Blocks(m)))
  }

  // The initialisation vector after a message whose ciphertext is given.
  function NextIv(iv: seq<Byte>, cipher: seq<Byte>): seq<Byte>
    requires |iv| == 16
  {
    Unblock(Chained(Block(iv), Blocks(cipher)))
  }

  // Decrypting with the converted schedule gives back the whole blocks of every message.
  lemma MessageComesBack(ks: seq<Word>, rounds: nat, iv: seq<Byte>, m: seq<Byte>)
    requires 4 * (rounds + 1) <= |ks| && |iv| == 16
    ensures DecryptMessage(Converted(ks, rounds), rounds, iv, EncryptMessage(ks, rounds, iv, m)) == m[..16 * (|m| / 16)]
  {
    hide EncryptBlocks, DecryptBlocks, Blocks, Unblocks, Block, Converted;
    BlocksOfUnblocks(EncryptBlocks(ks, rounds, Block(iv), Blocks(m)));
    BlocksComeBack(ks, rounds, Block(iv), Blocks(m));
    UnblocksOfBlocks(m);
  }

  // A message encrypted in two calls, the first of whole blocks, is the message encrypted at once,
  // and leaves the same initialisation vector.
  lemma MessageInTwo(ks: seq<Word>, rounds: nat, iv: seq<Byte>, a: seq<Byte>, b: seq<Byte>)
    requires 4 * (rounds + 1) <= |ks| && |iv| == 16 && |a| % 16 == 0
    ensures
      var first := EncryptMessage(ks, rounds, iv, a);
      var second := EncryptMessage(ks, rounds, NextIv(iv, first), b);
      && EncryptMessage(ks, rounds, iv, a + b) == first + second
      && NextIv(iv, first + second) == NextIv(NextIv(iv, first), second)
  {
    hide EncryptBlocks, Blocks, Unblocks, Block, Unblock;
    var c := EncryptBlocks(ks, rounds, Block(iv), Blocks(a));
    var next := Chained(Block(iv), c);
    var d := EncryptBlocks(ks, rounds, next, Blocks(b));
    BlocksOfUnblocks(c);
    BlocksOfUnblocks(d);
    BlocksOfUnblocks(c + d);
    BlockOfUnblock(next);
    BlocksAdd(a, b, |a| / 16);
    EncryptBlocksInTwo(ks, rounds, Block(iv), Blocks(a), Blocks(b));
    UnblocksAdd(c, d);
  }

  // ---------------------------------------------------------------- the code itself

  // memcpy into four words, and ntohl
  function Load(b: seq<Byte>): (words: seq<Word>)
    requires |b| == 16
    ensures |words| == 4
  {
    var s := Block(b);
    [Pack(s[0]), Pack(s[1]), Pack(s[2]), Pack(s[3])]
  }

  lemma LoadIsBlock(b: seq<Byte>)
    requires |b| == 16
    ensures Columns(Load(b)) == Block(b)
  {
    hide Bytes, Pack, Block;
    var s := Block(b);
    BytesPack(s[0]);
    BytesPack(s[1]);
    BytesPack(s[2]);
    BytesPack(s[3]);
  }

  // htonl, and memcpy out of four words
  function Store(words: seq<Word>): (b: seq<Byte>)
    requires |words| == 4
    ensures |b| == 16
  {
    Unblock(Columns(words))
  }

  function XorWords(v: seq<Word>, w: seq<Word>): (r: seq<Word>)
    requires |v| == |w| == 4
    ensures |r| == 4
  {
    [Xor(v[0], w[0]), Xor(v[1], w[1]), Xor(v[2], w[2]), Xor(v[3], w[3])]
  }

  lemma XorWordsAdds(v: seq<Word>, w: seq<Word>)
    requires |v| == |w| == 4
    ensures Columns(XorWords(v, w)) == AddState(Columns(v), Columns(w))
  {
    hide Bytes, Xor, AddColumns;
    BytesXor(v[0], w[0]);
    BytesXor(v[1], w[1]);
    BytesXor(v[2], w[2]);
    BytesXor(v[3], w[3]);
  }

  // memcpy to the output; of another array, or of this one further on, nothing changes.
  method CopyOut(bytes: seq<Byte>, out: array<Byte>, at: nat, ghost msg: array<Byte>)
    requires at + |bytes| <= out.Length
    modifies out
    ensures out[..] == old(out[..at]) + bytes + old(out[at + |bytes|..])
    ensures forall k :: at + |bytes| <= k < msg.Length ==> msg[k] == old(msg[k])
  {
    forall i | 0 <= i < |bytes| { out[at + i] := bytes[i]; }
  }

  method CopyWords(words: seq<Word>, data: array<Word>)
    requires |words| == data.Length == 4
    modifies data
    ensures data[..] == words
  {
    forall i | 0 <= i < 4 { data[i] := words[i]; }
  }

  // One more block at the end.
  lemma NextEncrypted(ks: seq<Word>, rounds: nat, iv: State, m: seq<State>, i: nat)
    requires 4 * (rounds + 1) <= |ks| && i < |m|
    ensures
      var c := EncryptBlocks(ks, rounds, iv, m[..i]);
      EncryptBlocks(ks, rounds, iv, m[..i + 1]) == c + [Encipher(ks, rounds, AddState(m[i], Chained(iv, c)))]
  {
    hide AddState, Encipher;
    assert m[..i + 1] == m[..i] + [m[i]];
    EncryptBlocksInTwo(ks, rounds, iv, m[..i], [m[i]]);
    assert [m[i]][1..] == [];
  }

  lemma NextDecrypted(ks: seq<Word>, rounds: nat, iv: State, m: seq<State>, i: nat)
    requires 4 * (rounds + 1) <= |ks| && i < |m|
    ensures DecryptBlocks(ks, rounds, iv, m[..i + 1])
            == DecryptBlocks(ks, rounds, iv, m[..i]) + [AddState(Decipher(ks, rounds, m[i]), Chained(iv, m[..i]))]
  {
    hide AddState, Decipher;
    assert m[..i + 1] == m[..i] + [m[i]];
    DecryptBlocksInTwo(ks, rounds, iv, m[..i], [m[i]]);
    assert [m[i]][1..] == [];
  }

  lemma {:induction false} BlockAt(m: seq<Byte>, i: nat)
    requires 16 * i + 16 <= |m|
    ensures i < |Blocks(m)| && Blocks(m)[i] == Block(m[16 * i..16 * i + 16])
  {
    hide Block;
    if i > 0 {
      BlockAt(m[16..], i - 1);
      assert m[16..][16 * (i - 1)..16 * (i - 1) + 16] == m[16 * i..16 * i + 16];
    } else {
      assert m[..16] == m[16 * i..16 * i + 16];
    }
  }

  lemma WrittenMore(was: seq<Byte>, out: seq<Byte>, done: seq<State>, s: State)
    requires 16 * |done| + 16 <= |was| && out == Unblocks(done) + was[16 * |done|..]
    ensures 16 * |done| + 16 <= |out|
    ensures out[..16 * |done|] + Unblock(s) + out[16 * |done| + 16..] == Unblocks(done + [s]) + was[16 * |done + [s]|..]
  {
    hide Unblock;
    UnblocksAdd(done, [s]);
    assert Unblocks([s]) == Unblock(s) + Unblocks([]);
    assert out[16 * |done| + 16..] == was[16 * |done| + 16..];
  }

  // How far a call has got: the chaining value and the output after i blocks.
  ghost predicate Encrypting(ks: seq<Word>, rounds: nat, iv: State, m: seq<State>, i: nat,
                             tout: seq<Word>, was: seq<Byte>, out: seq<Byte>)
    requires 4 * (rounds + 1) <= |ks|
  {
    && i <= |m| && |tout| == 4 && 16 * |m| <= |was| == |out|
    && Columns(tout) == Chained(iv, EncryptBlocks(ks, rounds, iv, m[..i]))
    && out == Unblocks(EncryptBlocks(ks, rounds, iv, m[..i])) + was[16 * i..]
  }

  ghost predicate Decrypting(ks: seq<Word>, rounds: nat, iv: State, m: seq<State>, i: nat,
                             xor: seq<Word>, was: seq<Byte>, out: seq<Byte>)
    requires 4 * (rounds + 1) <= |ks|
  {
    && i <= |m| && |xor| == 4 && 16 * |m| <= |was| == |out|
    && Columns(xor) == Chained(iv, m[..i])
    && out == Unblocks(DecryptBlocks(ks, rounds, iv, m[..i])) + was[16 * i..]
  }

  method EncryptBlock(ctx: Context, bytes: seq<Byte>, tin: array<Word>, tout: seq<Word>) returns (r: seq<Word>)
    requires ctx.Valid() && |bytes| == 16 && tin.Length == 4 == |tout| && tin != ctx.ks
    modifies tin
    ensures |r| == 4
    ensures Columns(r) == Encipher(ctx.ks[..], ctx.rounds, AddState(Block(bytes), Columns(tout)))
  {
    hide Block, Columns, XorWords, Load, AddState;
    LoadIsBlock(bytes);
    XorWordsAdds(Load(bytes), tout);
    CopyWords(XorWords(Load(bytes), tout), tin);
    ctx.Encrypt(tin);
    r := tin[..];
  }

  method DecryptBlock(ctx: Context, bytes: seq<Byte>, data: array<Word>, xor: seq<Word>)
    returns (tout: seq<Word>, tin: seq<Word>)
    requires ctx.Valid() && |bytes| == 16 && data.Length == 4 == |xor| && data != ctx.ks
    modifies data
    ensures |tout| == 4 == |tin|
    ensures Columns(tout) == AddState(Decipher(ctx.ks[..], ctx.rounds, Block(bytes)), Columns(xor))
    ensures Columns(tin) == Block(bytes)
  {
    hide Block, Columns, XorWords, Load, AddState;
    tin := Load(bytes);
    LoadIsBlock(bytes);
    CopyWords(tin, data);
    ctx.Decrypt(data);
    XorWordsAdds(data[..], xor);
    tout := XorWords(data[..], xor);
  }

  lemma StillEncrypting(ks: seq<Word>, rounds: nat, iv: State, m: seq<State>, i: nat,
                        tout: seq<Word>, next: seq<Word>, was: seq<Byte>, out: seq<Byte>)
    requires 4 * (rounds + 1) <= |ks| && Encrypting(ks, rounds, iv, m, i, tout, was, out) && i < |m|
    requires |next| == 4 && Columns(next) == Encipher(ks, rounds, AddState(m[i], Columns(tout)))
    ensures Encrypting(ks, rounds, iv, m, i + 1, next, was, out[..16 * i] + Store(next) + out[16 * i + 16..])
  {
    hide EncryptBlocks, Unblocks, Unblock, Columns, Encipher, AddState;
    NextEncrypted(ks, rounds, iv, m, i);
    WrittenMore(was, out, EncryptBlocks(ks, rounds, iv, m[..i]), Columns(next));
  }

  lemma StillDecrypting(ks: seq<Word>, rounds: nat, iv: State, m: seq<State>, i: nat,
                        xor: seq<Word>, tin: seq<Word>, tout: seq<Word>, was: seq<Byte>, out: seq<Byte>)
    requires 4 * (rounds + 1) <= |ks| && Decrypting(ks, rounds, iv, m, i, xor, was, out) && i < |m|
    requires |tout| == 4 == |tin| && Columns(tin) == m[i]
    requires Columns(tout) == AddState(Decipher(ks, rounds, m[i]), Columns(xor))
    ensures Decrypting(ks, rounds, iv, m, i + 1, tin, was, out[..16 * i] + Store(tout) + out[16 * i + 16..])
  {
    hide DecryptBlocks, Unblocks, Unblock, Columns, Decipher, AddState;
    NextDecrypted(ks, rounds, iv, m, i);
    WrittenMore(was, out, DecryptBlocks(ks, rounds, iv, m[..i]), Columns(tout));
    assert m[..i + 1][|m[..i + 1]| - 1] == m[i];
  }

  lemma StartEncrypting(ks: seq<Word>, rounds: nat, iv: seq<Byte>, m: seq<State>, was: seq<Byte>)
    requires 4 * (rounds + 1) <= |ks| && |iv| == 16 && 16 * |m| <= |was|
    ensures Encrypting(ks, rounds, Block(iv), m, 0, Load(iv), was, was)
    ensures Decrypting(ks, rounds, Block(iv), m, 0, Load(iv), was, was)
  {
    hide Columns, Block, Load;
    LoadIsBlock(iv);
  }

  lemma DoneEncrypting(ks: seq<Word>, rounds: nat, iv: seq<Byte>, m: seq<Byte>, tout: seq<Word>,
                       was: seq<Byte>, out: seq<Byte>)
    requires 4 * (rounds + 1) <= |ks| && |iv| == 16
    requires Encrypting(ks, rounds, Block(iv), Blocks(m), |Blocks(m)|, tout, was, out)
    ensures
      var cipher := EncryptMessage(ks, rounds, iv, m);
      && |cipher| == 16 * (|m| / 16) && out == cipher + was[16 * (|m| / 16)..] && Store(tout) == NextIv(iv, cipher)
  {
    hide Columns, Block, Blocks, EncryptBlocks, Unblocks, Unblock;
    assert Blocks(m)[..|Blocks(m)|] == Blocks(m);
    BlocksOfUnblocks(EncryptBlocks(ks, rounds, Block(iv), Blocks(m)));
  }

  lemma DoneDecrypting(ks: seq<Word>, rounds: nat, iv: seq<Byte>, m: seq<Byte>, xor: seq<Word>,
                       was: seq<Byte>, out: seq<Byte>)
    requires 4 * (rounds + 1) <= |ks| && |iv| == 16
    requires Decrypting(ks, rounds, Block(iv), Blocks(m), |Blocks(m)|, xor, was, out)
    ensures
      var plain := DecryptMessage(ks, rounds, iv, m);
      && |plain| == 16 * (|m| / 16) && out == plain + was[16 * (|m| / 16)..] && Store(xor) == NextIv(iv, m)
  {
    hide Columns, Block, Blocks, DecryptBlocks, Unblocks, Unblock;
    assert Blocks(m)[..|Blocks(m)|] == Blocks(m);
  }

  // AES_cbc_encrypt. The message and the output may be the same array.
  method CbcEncrypt(ctx: Context, msg: array<Byte>, out: array<Byte>, length: nat)
    requires ctx.Valid() && length <= msg.Length && length <= out.Length && ctx.iv != msg && ctx.iv != out
    modifies out, ctx.iv
    ensures
      var cipher := EncryptMessage(ctx.ks[..], ctx.rounds, old(ctx.iv[..]), old(msg[..length]));
      && |cipher| == 16 * (length / 16) && out[..] == cipher + old(out[16 * (length / 16)..])
      && ctx.iv[..] == NextIv(old(ctx.iv[..]), cipher)
  {
    hide Encrypting, Decrypting, Blocks, Block, Columns, Store, Load, EncryptMessage, NextIv, Encipher, AddState;
    ghost var m, was, iv, ks := msg[..length], out[..], ctx.iv[..], ctx.ks[..];
    var tin := new Word[4];
    var tout := Load(ctx.iv[..]);
    var left: int := length - 16;
    var at := 0;
    ghost var i := 0;
    StartEncrypting(ks, ctx.rounds, iv, Blocks(m), was);
    while left >= 0
      invariant left == length - 16 * i - 16 && at == 16 * i && 0 <= i <= |Blocks(m)| && |tout| == 4
      invariant ctx.ks[..] == ks && ctx.iv[..] == iv
      invariant Encrypting(ks, ctx.rounds, Block(iv), Blocks(m), i, tout, was, out[..])
      invariant forall k :: 16 * i <= k < length ==> msg[k] == m[k]
    {
      assert msg[at..at + 16] == m[16 * i..16 * i + 16];
      BlockAt(m, i);
      var next := EncryptBlock(ctx, msg[at..at + 16], tin, tout);
      StillEncrypting(ks, ctx.rounds, Block(iv), Blocks(m), i, tout, next, was, out[..]);
      tout := next;
      CopyOut(Store(tout), out, at, msg);
      at := at + 16;
      left := left - 16;
      i := i + 1;
    }
    DoneEncrypting(ks, ctx.rounds, iv, m, tout, was, out[..]);
    CopyOut(Store(tout), ctx.iv, 0, out);
  }

  // AES_cbc_decrypt
  method CbcDecrypt(ctx: Context, msg: array<Byte>, out: array<Byte>, length: nat)
    requires ctx.Valid() && length <= msg.Length && length <= out.Length && ctx.iv != msg && ctx.iv != out
    modifies out, ctx.iv
    ensures
      var plain := DecryptMessage(ctx.ks[..], ctx.rounds, old(ctx.iv[..]), old(msg[..length]));
      && |plain| == 16 * (length / 16) && out[..] == plain + old(out[16 * (length / 16)..])
      && ctx.iv[..] == NextIv(old(ctx.iv[..]), old(msg[..length]))
  {
    hide Encrypting, Decrypting, Blocks, Block, Columns, Store, Load, DecryptMessage, NextIv, Decipher, AddState;
    ghost var m, was, iv, ks := msg[..length], out[..], ctx.iv[..], ctx.ks[..];
    var data := new Word[4];
    var xor := Load(ctx.iv[..]);
    var left: int := length - 16;
    var at := 0;
    ghost var i := 0;
    StartEncrypting(ks, ctx.rounds, iv, Blocks(m), was);
    while left >= 0
      invariant left == length - 16 * i - 16 && at == 16 * i && 0 <= i <= |Blocks(m)| && |xor| == 4
      invariant ctx.ks[..] == ks && ctx.iv[..] == iv
      invariant Decrypting(ks, ctx.rounds, Block(iv), Blocks(m), i, xor, was, out[..])
      invariant forall k :: 16 * i <= k < length ==> msg[k] == m[k]
    {
      assert msg[at..at + 16] == m[16 * i..16 * i + 16];
      BlockAt(m, i);
      var tout, tin := DecryptBlock(ctx, msg[at..at + 16], data, xor);
      StillDecrypting(ks, ctx.rounds, Block(iv), Blocks(m), i, xor, tin, tout, was, out[..]);
      xor := tin;
      CopyOut(Store(tout), out, at, msg);
      at := at + 16;
      left := left - 16;
      i := i + 1;
    }
    DoneDecrypting(ks, ctx.rounds, iv, m, xor, was, out[..]);
    CopyOut(Store(xor), ctx.iv, 0, out);
  }
}
