// queue.c: the byte ring behind a queue. Items are copied into and out of one byte array by two
// offsets that step by the item size and wrap at the tail; proved is that this is a bounded
// sequence of items. pcWriteTo is where the next item sent to the back goes, pcReadFrom is the
// place before the next item to be received.
module RingBuffer {
  type Byte = bv8
  type Item = seq<Byte>

  datatype Position = Back | Front | Overwrite

  // ---------------------------------------------------------------- a ring of places

  function Wrap(place: nat, n: nat): nat {
    if place >= 2 * n then place - 2 * n else if place >= n then place - n else place
  }

  function Before(place: nat, n: nat): int { if place == 0 then n - 1 else place - 1 }

  // The count items that follow place r.
  function Unroll<T>(cells: seq<T>, r: nat, count: nat): (s: seq<T>)
    requires r < |cells| && count <= |cells|
    ensures |s| == count
  {
    seq(count, i requires 0 <= i < count => cells[Wrap(r + 1 + i, |cells|)])
  }

  lemma UnrollBack<T>(cells: seq<T>, r: nat, count: nat, x: T)
    requires r < |cells| && count < |cells|
    ensures Unroll(cells[Wrap(r + 1 + count, |cells|) := x], r, count + 1) == Unroll(cells, r, count) + [x]
  {
    var n := |cells|;
    var s := Unroll(cells[Wrap(r + 1 + count, n) := x], r, count + 1);
    forall i | 0 <= i < count ensures s[i] == Unroll(cells, r, count)[i] {
      assert Wrap(r + 1 + i, n) != Wrap(r + 1 + count, n);
    }
    assert s[count] == x;
  }

  lemma UnrollFront<T>(cells: seq<T>, r: nat, count: nat, x: T)
    requires r < |cells| && count < |cells|
    ensures Unroll(cells[r := x], Before(r, |cells|), count + 1) == [x] + Unroll(cells, r, count)
  {
    var n := |cells|;
    var s := Unroll(cells[r := x], Before(r, n), count + 1);
    forall i | 0 < i < count + 1 ensures s[i] == Unroll(cells, r, count)[i - 1] {
      assert Wrap(Before(r, n) + 1 + i, n) == Wrap(r + 1 + (i - 1), n) != r;
    }
    assert Wrap(Before(r, n) + 1 + 0, n) == r;
  }

  lemma UnrollPop<T>(cells: seq<T>, r: nat, count: nat)
    requires r < |cells| && 0 < count <= |cells|
    ensures cells[Wrap(r + 1, |cells|)] == Unroll(cells, r, count)[0]
    ensures Unroll(cells, Wrap(r + 1, |cells|), count - 1) == Unroll(cells, r, count)[1..]
  {
    var n := |cells|;
    var s := Unroll(cells, Wrap(r + 1, n), count - 1);
    forall i | 0 <= i < count - 1 ensures s[i] == Unroll(cells, r, count)[i + 1] {
      assert Wrap(Wrap(r + 1, n) + 1 + i, n) == Wrap(r + 1 + (i + 1), n);
    }
    assert Unroll(cells, r, count)[0] == cells[Wrap(r + 1 + 0, n)];
  }

  lemma WrapIsModulo(place: nat, n: nat)
    requires 0 < n && place <= 2 * n
    ensures Wrap(place, n) == place % n
  {
  }

  // The effect of a send to the back, and of one to the front or over the only item.
  lemma Filled<T>(cells: seq<T>, r: nat, count: nat, x: T)
    requires r < |cells| && count < |cells|
    ensures Unroll(cells[Wrap(r + 1 + count, |cells|) := x], r, count + 1) == Unroll(cells, r, count) + [x]
    ensures Wrap(Wrap(r + 1 + count, |cells|) + 1, |cells|) == Wrap(r + 1 + (count + 1), |cells|)
  {
    UnrollBack(cells, r, count, x);
  }

  lemma Refilled<T>(cells: seq<T>, r: nat, count: nat, x: T)
    requires r < |cells| && (count < |cells| || |cells| == count == 1)
    ensures 0 <= Before(r, |cells|) < |cells|
    ensures count < |cells| ==>
      && Unroll(cells[r := x], Before(r, |cells|), count + 1) == [x] + Unroll(cells, r, count)
      && Wrap(Before(r, |cells|) + 1 + (count + 1), |cells|) == Wrap(r + 1 + count, |cells|)
    ensures count == 1 == |cells| ==>
      && Unroll(cells[r := x], Before(r, |cells|), 1) == [x]
      && Wrap(Before(r, |cells|) + 1 + 1, |cells|) == Wrap(r + 1 + count, |cells|)
  {
    if count < |cells| {
      UnrollFront(cells, r, count, x);
    } else {
      assert Wrap(0 + 1 + 0, |cells[r := x]|) == 0;
    }
  }

  // ---------------------------------------------------------------- places in a byte array

  function Cell(bytes: seq<Byte>, size: nat, k: nat): Item {
    if k * size + size <= |bytes| then bytes[k * size..k * size + size] else []
  }

  function Cells(bytes: seq<Byte>, size: nat, n: nat): (cells: seq<Item>)
    ensures |cells| == n
  {
    seq(n, k requires 0 <= k < n => Cell(bytes, size, k))
  }

  lemma PlaceFits(k: nat, n: nat, size: nat)
    requires k < n
    ensures k * size + size <= n * size
    decreases n
  {
    assert n * size == (n - 1) * size + size;
    if k + 1 < n { PlaceFits(k, n - 1, size); }
  }

  // Writing place k leaves place j as it was.
  lemma OtherCell(bytes: seq<Byte>, written: seq<Byte>, size: nat, n: nat, k: nat, j: nat)
    requires |bytes| == |written| == n * size && k < n && j < n && j != k
    requires forall i :: 0 <= i < |bytes| && !(k * size <= i < k * size + size) ==> written[i] == bytes[i]
    ensures Cell(written, size, j) == Cell(bytes, size, j)
  {
    PlaceFits(j, n, size);
    if j < k { PlaceFits(j, k, size); } else { PlaceFits(k, j, size); }
  }

  lemma WriteCell(bytes: seq<Byte>, written: seq<Byte>, size: nat, n: nat, k: nat, item: Item)
    requires |bytes| == |written| == n * size && k < n && |item| == size
    requires k * size + size <= |written|
    requires forall i :: 0 <= i < size ==> written[k * size + i] == item[i]
    requires forall i :: 0 <= i < |bytes| && !(k * size <= i < k * size + size) ==> written[i] == bytes[i]
    ensures Cells(written, size, n) == Cells(bytes, size, n)[k := item]
  {
    assert Cell(written, size, k) == item;
    hide Cell;
    forall j | 0 <= j < n && j != k ensures Cell(written, size, j) == Cell(bytes, size, j) {
      OtherCell(bytes, written, size, n, k, j);
    }
  }

  // ---------------------------------------------------------------- the sequence it stands for

  // prvCopyDataToQueue as a change of the sequence. Items without a size are only counted, by an
  // unsigned char, and overwriting one of those still adds to the count.
  function Put(s: seq<Item>, item: Item, position: Position, size: nat): seq<Item> {
    match position
    case Back => s + [item]
    case Front => [item] + s
    case Overwrite => if size > 0 then (if s == [] then [item] else [item] + s[1..])
                      else if |s| == 255 then [] else [item] + s
  }

  // xQueueOverwrite promises that the item sent is the only one: this holds exactly when items
  // have a size or the queue was empty.
  lemma OverwriteReplaces(s: seq<Item>, item: Item, size: nat)
    requires |s| <= 1
    ensures Put(s, item, Overwrite, size) == [item] <==> size > 0 || s == []
  {
    if size == 0 && s != [] { assert |Put(s, item, Overwrite, size)| == 2; }
  }

  // A full queue whose items have no size: overwriting makes the queue of one item hold two.
  lemma OverwriteAdds()
    ensures Put([[]], [], Overwrite, 0) == [[], []] != [[]]
  {
  }

  // ---------------------------------------------------------------- runs of calls

  datatype Op = Post(item: Item, position: Position) | Receive(peek: bool)

  // A queue, and what has become of the items: accepted, handed out or replaced by overwriting.
  datatype Log = Log(queue: seq<Item>, accepted: seq<Item>, taken: seq<Item>, replaced: seq<Item>)

  predicate Accepts(s: seq<Item>, op: Op, length: nat) { op.Post? && (|s| < length || op.position == Overwrite) }

  predicate Hands(s: seq<Item>, op: Op) { op == Receive(false) && s != [] }

  function Record(log: Log, op: Op, length: nat, size: nat): Log {
    if Accepts(log.queue, op, length) then
      Log(Put(log.queue, op.item, op.position, size), log.accepted + [op.item], log.taken,
          if op.position == Overwrite && log.queue != [] then log.replaced + [log.queue[0]] else log.replaced)
    else if Hands(log.queue, op) then
      log.(queue := log.queue[1..], taken := log.taken + [log.queue[0]])
    else log
  }

  function RecordAll(log: Log, ops: seq<Op>, length: nat, size: nat): Log
    decreases |ops|
  {
    if ops == [] then log else RecordAll(Record(log, ops[0], length, size), ops[1..], length, size)
  }

  predicate Fits(op: Op, length: nat, size: nat) {
    op.Post? ==> |op.item| == size && (op.position == Overwrite ==> length == 1)
  }

  predicate AllFit(ops: seq<Op>, length: nat, size: nat) {
    forall i :: 0 <= i < |ops| ==> Fits(ops[i], length, size)
  }

  function Account(log: Log): multiset<Item> { multiset(log.taken) + multiset(log.queue) + multiset(log.replaced) }

  // Wherever items with a size are sent to, each one accepted is handed out once, replaced, or still
  // in the queue, which is never longer than it may be.
  lemma {:induction false} NothingLost(log: Log, ops: seq<Op>, length: nat, size: nat)
    requires 0 < size && 0 < length && AllFit(ops, length, size)
    requires multiset(log.accepted) == Account(log) && |log.queue| <= length
    ensures
      var end := RecordAll(log, ops, length, size);
      multiset(end.accepted) == Account(end) && |end.queue| <= length
    decreases |ops|
  {
    hide Record;
    if ops != [] {
      assert Fits(ops[0], length, size);
      RecordAccounts(log, ops[0], length, size);
      NothingLost(Record(log, ops[0], length, size), ops[1..], length, size);
    }
  }

  lemma RecordAccounts(log: Log, op: Op, length: nat, size: nat)
    requires 0 < size && 0 < length && Fits(op, length, size)
    requires multiset(log.accepted) == Account(log) && |log.queue| <= length
    ensures
      var next := Record(log, op, length, size);
      multiset(next.accepted) == Account(next) && |next.queue| <= length
  {
    hide Put, Account;
    if Accepts(log.queue, op, length) {
      PutAccounts(log.queue, op.item, op.position, size);
      AcceptedAccounts(log, op, length, size);
    } else if Hands(log.queue, op) {
      HandedAccounts(log, op, length, size);
    }
  }

  lemma AcceptedAccounts(log: Log, op: Op, length: nat, size: nat)
    requires 0 < size && Accepts(log.queue, op, length)
    ensures Account(Record(log, op, length, size)) == Account(log) + multiset{op.item}
    ensures multiset(Record(log, op, length, size).accepted) == multiset(log.accepted) + multiset{op.item}
  {
    hide Put;
    var next := Record(log, op, length, size);
    var out := if op.position == Overwrite && log.queue != [] then [log.queue[0]] else [];
    PutAccounts(log.queue, op.item, op.position, size);
    assert next.replaced == log.replaced + out;
    assert Account(next) == multiset(log.taken) + (multiset(next.queue) + multiset(out)) + multiset(log.replaced);
  }

  lemma HandedAccounts(log: Log, op: Op, length: nat, size: nat)
    requires Hands(log.queue, op)
    ensures Account(Record(log, op, length, size)) == Account(log)
  {
    assert log.queue == [log.queue[0]] + log.queue[1..];
  }

  lemma PutAccounts(s: seq<Item>, item: Item, position: Position, size: nat)
    requires size > 0
    ensures
      var next := multiset(Put(s, item, position, size));
      && |Put(s, item, position, size)| == (if position == Overwrite && s != [] then |s| else |s| + 1)
      && next + (if position == Overwrite && s != [] then multiset{s[0]} else multiset{})
         == multiset(s) + multiset{item}
  {
    if s != [] { assert s == [s[0]] + s[1..]; }
  }

  // How many items a run sends to the front, and how many it hands out.
  function Fronts(log: Log, ops: seq<Op>, length: nat, size: nat): nat
    decreases |ops|
  {
    if ops == [] then 0
    else
      (if Accepts(log.queue, ops[0], length) && ops[0].position == Front then 1 else 0)
      + Fronts(Record(log, ops[0], length, size), ops[1..], length, size)
  }

  function Takes(log: Log, ops: seq<Op>, length: nat, size: nat): nat
    decreases |ops|
  {
    if ops == [] then 0
    else (if Hands(log.queue, ops[0]) then 1 else 0) + Takes(Record(log, ops[0], length, size), ops[1..], length, size)
  }

  // So far the run has not handed out the item at index i.
  predicate InTime(log: Log, ops: seq<Op>, i: nat, length: nat, size: nat) {
    Takes(log, ops, length, size) <= i + Fronts(log, ops, length, size)
  }

  // An item waits for those ahead of it and those sent to the front meanwhile, and for no other: it
  // moves by their numbers, and once there is none left it is the next to be handed out. Only
  // overwriting can keep it from that.
  lemma {:induction false} FirstInFirstOut(log: Log, ops: seq<Op>, i: nat, length: nat, size: nat)
    requires i < |log.queue| && AllFit(ops, length, size)
    requires forall k :: 0 <= k < |ops| ==> InTime(log, ops[..k], i, length, size)
    requires forall k :: 0 <= k < |ops| ==> !(ops[k].Post? && ops[k].position == Overwrite)
    ensures
      var end := RecordAll(log, ops, length, size);
      var ahead := i + Fronts(log, ops, length, size) - Takes(log, ops, length, size);
      if ahead >= 0 then ahead < |end.queue| && end.queue[ahead] == log.queue[i]
      else end.taken != [] && end.taken[|end.taken| - 1] == log.queue[i]
    decreases |ops|
  {
    if ops != [] {
      var op, rest := ops[0], ops[1..];
      forall k | 0 <= k < |rest| ensures rest[..k] == ops[..k + 1][1..] && InTime(log, ops[..k + 1], i, length, size) {
      }
      if Hands(log.queue, op) && i == 0 {
        if |ops| > 1 {
          assert ops[..1] == [op];
          HandedNow(log, op, length, size);
          assert false;
        } else {
          assert ops == [op];
          HandedNow(log, op, length, size);
        }
      } else {
        FirstInFirstOut(Record(log, op, length, size), rest, Moved(log, op, i, length), length, size);
      }
    }
  }

  // The index of an item after a call.
  function Moved(log: Log, op: Op, i: nat, length: nat): int {
    if Hands(log.queue, op) then i - 1
    else if Accepts(log.queue, op, length) && op.position == Front then i + 1 else i
  }

  lemma HandedNow(log: Log, op: Op, length: nat, size: nat)
    requires Hands(log.queue, op)
    ensures RecordAll(log, [op], length, size) == Record(log, op, length, size)
    ensures Fronts(log, [op], length, size) == 0 && Takes(log, [op], length, size) == 1
    ensures !InTime(log, [op], 0, length, size)
  {
    assert [op][1..] == [];
  }

  class Buffer {
    const itemSize: nat
    const length: nat
    const store: array<Byte>         // pcHead; pcTail is its end
    var writeTo: nat
    var readFrom: int
    var count: nat                   // uxMessagesWaiting
    ghost var w: nat                 // the places the two offsets stand for
    ghost var r: nat

    ghost predicate Valid()
      reads this, store
    {
      && 0 < length <= 255 && store.Length == length * itemSize
      && w < length && r < length && writeTo == w * itemSize && readFrom == r * itemSize
      && (itemSize > 0 ==> count <= length && w == Wrap(r + 1 + count, length))
      && count <= 255
    }

    ghost function Places(): seq<Item>
      reads this, store
    {
      Cells(store[..], itemSize, length)
    }

    ghost function Contents(): (s: seq<Item>)
      requires Valid()
      reads this, store
      ensures |s| == count
    {
      if itemSize == 0 then seq(count, i => []) else Unroll(Places(), r, count)
    }

    // xQueueGenericCreate and xQueueGenericReset
    constructor (length: nat, itemSize: nat)
      requires 0 < length <= 255
      ensures Valid() && fresh(store) && this.length == length && this.itemSize == itemSize
      ensures Contents() == []
    {
      this.length, this.itemSize := length, itemSize;
      store := new Byte[length * itemSize];
      writeTo, readFrom, count := 0, (length - 1) * itemSize, 0;
      w, r := 0, length - 1;
    }

    method CopyIn(offset: nat, item: Item, ghost k: nat)
      requires Valid() && k < length && offset == k * itemSize && |item| == itemSize
      modifies store
      ensures Valid() && Places() == old(Places())[k := item]
    {
      PlaceFits(k, length, itemSize);
      ghost var bytes := store[..];
      forall i | 0 <= i < itemSize { store[offset + i] := item[i]; }
      WriteCell(bytes, store[..], itemSize, length, k, item);
    }

    // Adding the item size to the offset of a place gives the next one, or the tail.
    lemma StepOn(k: nat)
      requires Valid() && k < length && itemSize > 0
      ensures k * itemSize + itemSize == (k + 1) * itemSize
      ensures (k + 1) * itemSize >= store.Length <==> k == length - 1
      ensures (length - 1) * itemSize == store.Length - itemSize
      ensures 0 < k ==> k * itemSize >= itemSize
    {
      if k + 1 < length { PlaceFits(k + 1, length, itemSize); }
      if 0 < k { PlaceFits(0, k, itemSize); }
    }

    // pcWriteTo moves on by one place.
    method StepWrite()
      requires Valid() && itemSize > 0
      modifies this`writeTo, this`w
      ensures w == Wrap(old(w) + 1, length) < length && writeTo == w * itemSize
    {
      StepOn(w);
      writeTo := writeTo + itemSize;
      w := w + 1;
      if writeTo >= store.Length {
        writeTo, w := 0, 0;
      }
    }

    // pcReadFrom moves back by one place, perhaps from below the head to the last one.
    method StepReadBack()
      requires Valid() && itemSize > 0
      modifies this`readFrom, this`r
      ensures r == Before(old(r), length) < length && readFrom == r * itemSize
    {
      StepOn(r);
      if r > 0 { StepOn(r - 1); }
      readFrom := readFrom - itemSize;
      r := Before(r, length);
      if readFrom < 0 {
        readFrom := store.Length - itemSize;
      }
    }

    method CopyDataToQueue(item: Item, position: Position)
      requires Valid() && |item| == itemSize
      requires if position == Overwrite then length == 1 else count < length
      modifies this, store
      ensures Valid() && Contents() == Put(old(Contents()), item, position, itemSize)
    {
      hide Cells, Wrap, Unroll, Before;
      ghost var places, place, had := Places(), r, count;
      if itemSize == 0 {
      } else if position == Back {
        CopyIn(writeTo, item, w);
        StepWrite();
        Filled(places, place, had, item);
      } else {
        CopyIn(readFrom, item, r);
        StepReadBack();
        if position == Overwrite && count > 0 {
          count := count - 1;
        }
        Refilled(places, place, had, item);
      }
      count := if count == 255 then 0 else count + 1;
    }

    // prvCopyDataFromQueue: the read offset moves on, then the item there is copied out.
    method CopyDataFromQueue() returns (item: Item)
      requires Valid() && count > 0
      modifies this`readFrom, this`r
      ensures r < length && readFrom == r * itemSize
      ensures itemSize > 0 ==> r == Wrap(old(r) + 1, length)
      ensures item == old(Contents())[0]
    {
      item := [];
      if itemSize != 0 {
        UnrollPop(Places(), r, count);
        StepOn(r);
        readFrom := readFrom + itemSize;
        r := r + 1;
        if readFrom >= store.Length {
          readFrom, r := 0, 0;
        }
        PlaceFits(r, length, itemSize);
        item := store[readFrom..readFrom + itemSize];
      }
    }

    // The copying part of xQueueGenericSend.
    method Send(item: Item, position: Position) returns (sent: bool)
      requires Valid() && |item| == itemSize && (position == Overwrite ==> length == 1)
      modifies this, store
      ensures Valid()
      ensures sent <==> |old(Contents())| < length || position == Overwrite
      ensures Contents() == if sent then Put(old(Contents()), item, position, itemSize) else old(Contents())
    {
      sent := count < length || position == Overwrite;
      if sent {
        CopyDataToQueue(item, position);
      }
    }

    // The copying part of xQueueGenericReceive.
    method Receive(peek: bool) returns (received: bool, item: Item)
      requires Valid()
      modifies this
      ensures Valid()
      ensures received <==> old(Contents()) != []
      ensures received ==> item == old(Contents())[0]
      ensures Contents() == if received && !peek then old(Contents())[1..] else old(Contents())
    {
      received, item := count > 0, [];
      if received {
        var originalReadPosition := readFrom;
        ghost var place := r;
        if itemSize > 0 { UnrollPop(Places(), r, count); }
        item := CopyDataFromQueue();
        if !peek {
          count := count - 1;
        } else {
          readFrom := originalReadPosition;
          r := place;
        }
      }
    }

    // Any calls, one after the other, on the bytes.
    method Perform(ops: seq<Op>, ghost log: Log) returns (taken: seq<Item>)
      requires Valid() && log.queue == Contents() && AllFit(ops, length, itemSize)
      modifies this, store
      ensures Valid()
      ensures Contents() == RecordAll(log, ops, length, itemSize).queue
      ensures log.taken + taken == RecordAll(log, ops, length, itemSize).taken
    {
      hide Put, Cells, Wrap, Unroll;
      if ops == [] {
        return [];
      }
      var op, rest, first := ops[0], ops[1..], [];
      assert Fits(op, length, itemSize);
      ghost var next := Record(log, op, length, itemSize);
      if op.Post? {
        var _ := Send(op.item, op.position);
      } else {
        var received, item := Receive(op.peek);
        if received && !op.peek { first := [item]; }
      }
      assert Contents() == next.queue && next.taken == log.taken + first;
      taken := Perform(rest, next);
      assert log.taken + (first + taken) == next.taken + taken;
      taken := first + taken;
    }
  }
}
