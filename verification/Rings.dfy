// The abstract value of a kernel list (list.c): the items in link order, starting after the
// end marker, and the position of the roving index pxIndex. Position 0 is the end marker and
// position k > 0 is items[k-1].
//
// On this value the round-robin promise of listGET_OWNER_OF_NEXT_ENTRY is proved: however list
// insertions and removals are interleaved with selections, an item that stays in the list is
// selected within a bounded number of selections.
module Rings {

  ghost predicate NoDup<T>(s: seq<T>) {
    forall i, j :: 0 <= i < j < |s| ==> s[i] != s[j]
  }

  // The position of x in s.
  function Find<T(==)>(s: seq<T>, x: T): (p: nat)
    requires x in s
    ensures p < |s| && s[p] == x
  {
    if s[0] == x then 0 else 1 + Find(s[1..], x)
  }

  // s with the item at position p taken out.
  function Cut<T>(s: seq<T>, p: nat): seq<T>
    requires p < |s|
  {
    s[..p] + s[p + 1..]
  }

  // s with x taken out, if it is there.
  function Without<T(==)>(s: seq<T>, x: T): seq<T> {
    if x in s then Cut(s, Find(s, x)) else s
  }

  // s with x put in so that it gets position p.
  function Paste<T>(s: seq<T>, p: nat, x: T): seq<T>
    requires p <= |s|
  {
    s[..p] + [x] + s[p..]
  }

  // The position at which vListInsert links a new value: just before the first greater one.
  function FirstGreater(values: seq<nat>, v: nat): (p: nat)
    ensures p <= |values|
    ensures forall i :: 0 <= i < p ==> values[i] <= v
    ensures p < |values| ==> values[p] > v
  {
    if values == [] || values[0] > v then 0 else 1 + FirstGreater(values[1..], v)
  }

  ghost predicate Sorted(values: seq<nat>) {
    forall i, j :: 0 <= i <= j < |values| ==> values[i] <= values[j]
  }

  datatype Ring<T(==)> = Ring(items: seq<T>, index: nat) {
    ghost predicate Valid() {
      index <= |items| && NoDup(items)
    }

    // vListInsertEnd: link x just behind the index.
    function InsertEnd(x: T): Ring<T>
      requires index <= |items|
    {
      if index == 0 then Ring(items + [x], 0) else Ring(Paste(items, index - 1, x), index + 1)
    }

    // vListInsert at position p; an index at or past p keeps pointing at its item.
    function InsertAt(p: nat, x: T): Ring<T>
      requires p <= |items|
    {
      Ring(Paste(items, p, x), if p < index then index + 1 else index)
    }

    // uxListRemove: an index on the removed item steps back.
    function Remove(x: T): Ring<T>
      requires x in items
    {
      var p := Find(items, x);
      Ring(Cut(items, p), if p < index then index - 1 else index)
    }

    // listGET_OWNER_OF_NEXT_ENTRY: step the index on, skipping the end marker.
    function Next(): Ring<T>
      requires items != [] && index <= |items|
    {
      Ring(items, if index == |items| then 1 else index + 1)
    }

    function Current(): T
      requires 0 < index <= |items|
    {
      items[index - 1]
    }
  }

  // ---------------------------------------------------------------- membership

  lemma CutFacts<T>(s: seq<T>, p: nat)
    requires p < |s| && NoDup(s)
    ensures NoDup(Cut(s, p))
    ensures forall y :: y in Cut(s, p) <==> y in s && y != s[p]
  {
    forall y | y in s && y != s[p] ensures y in Cut(s, p) {
      var i :| 0 <= i < |s| && s[i] == y;
      assert Cut(s, p)[if i < p then i else i - 1] == y;
    }
  }

  lemma WithoutFacts<T>(s: seq<T>, x: T)
    requires NoDup(s)
    ensures NoDup(Without(s, x)) && x !in Without(s, x)
    ensures forall y :: y in Without(s, x) <==> y in s && y != x
  {
    if x in s { CutFacts(s, Find(s, x)); }
  }

  lemma PasteFacts<T>(s: seq<T>, p: nat, x: T)
    requires p <= |s| && NoDup(s) && x !in s
    ensures NoDup(Paste(s, p, x))
    ensures forall y :: y in Paste(s, p, x) <==> y in s || y == x
  {
    forall y | y in s ensures y in Paste(s, p, x) {
      var i :| 0 <= i < |s| && s[i] == y;
      assert Paste(s, p, x)[if i < p then i else i + 1] == y;
    }
    assert Paste(s, p, x)[p] == x;
  }

  lemma FindUnique<T>(s: seq<T>, p: nat)
    requires p < |s| && NoDup(s)
    ensures Find(s, s[p]) == p
  {
  }

  lemma InsertEndFacts<T>(r: Ring<T>, x: T)
    requires r.Valid() && x !in r.items
    ensures r.InsertEnd(x).Valid()
    ensures forall y :: y in r.InsertEnd(x).items <==> y in r.items || y == x
  {
    if r.index == 0 {
      assert r.items + [x] == Paste(r.items, |r.items|, x);
      PasteFacts(r.items, |r.items|, x);
    } else {
      PasteFacts(r.items, r.index - 1, x);
    }
  }

  lemma RemoveFacts<T>(r: Ring<T>, x: T)
    requires r.Valid() && x in r.items
    ensures r.Remove(x).Valid()
    ensures forall y :: y in r.Remove(x).items <==> y in r.items && y != x
  {
    CutFacts(r.items, Find(r.items, x));
  }

  // Sorted insertion keeps a list sorted and puts a new value behind every equal one.
  lemma InsertSorted(values: seq<nat>, v: nat)
    requires Sorted(values)
    ensures var p := FirstGreater(values, v);
      && Sorted(Paste(values, p, v))
      && (forall i :: 0 <= i < |values| && values[i] == v ==> i < p)
  {
  }

  lemma CutPaste<T>(s: seq<T>, p: nat, x: T)
    requires p <= |s| && NoDup(s) && x !in s
    ensures x in Paste(s, p, x) && Find(Paste(s, p, x), x) == p
    ensures Cut(Paste(s, p, x), p) == s
  {
    PasteFacts(s, p, x);
    FindUnique(Paste(s, p, x), p);
  }

  // Removing what was just inserted gives back the list, index included.
  lemma RemoveUndoesInsertAt<T>(r: Ring<T>, p: nat, x: T)
    requires r.Valid() && p <= |r.items| && x !in r.items
    ensures x in r.InsertAt(p, x).items && r.InsertAt(p, x).Remove(x) == r
  {
    CutPaste(r.items, p, x);
  }

  lemma RemoveUndoesInsertEnd<T>(r: Ring<T>, x: T)
    requires r.Valid() && x !in r.items
    ensures x in r.InsertEnd(x).items && r.InsertEnd(x).Remove(x) == r
  {
    assert Paste(r.items, |r.items|, x) == r.items + [x];
    CutPaste(r.items, if r.index == 0 then |r.items| else r.index - 1, x);
  }

  // ---------------------------------------------------------------- bounded waiting

  // How many selections reach x when nothing else happens to the list.
  function Distance<T(==)>(r: Ring<T>, x: T): nat
    requires r.index <= |r.items| && x in r.items
  {
    var place := Find(r.items, x) + 1;
    if r.index < place then place - r.index else |r.items| - r.index + place
  }

  // A bound on the wait of x that survives list operations, for lists of at most m items:
  // ahead of the index only the items in between count; at or behind it, the items up to the
  // end marker and then a whole pass.
  function Wait<T(==)>(r: Ring<T>, x: T, m: nat): nat
    requires r.index <= |r.items| && x in r.items
  {
    var place := Find(r.items, x) + 1;
    if r.index < place then place - r.index else |r.items| - r.index + m
  }

  // Undisturbed, an item is selected after exactly Distance selections.
  lemma {:induction false} DistanceIsExact<T>(r: Ring<T>, x: T)
    requires r.Valid() && x in r.items
    ensures (r.Next().Current() == x) == (Distance(r, x) == 1)
    ensures r.Next().Current() != x ==> Distance(r.Next(), x) == Distance(r, x) - 1
  {
    FindUnique(r.items, r.Next().index - 1);
  }

  lemma PasteFind<T>(s: seq<T>, p: nat, x: T, y: T)
    requires p <= |s| && NoDup(s) && x !in s && y in s
    ensures y in Paste(s, p, x)
    ensures Find(Paste(s, p, x), y) == if Find(s, y) < p then Find(s, y) else Find(s, y) + 1
  {
    PasteFacts(s, p, x);
    var f := Find(s, y);
    FindUnique(Paste(s, p, x), if f < p then f else f + 1);
  }

  lemma CutFind<T>(s: seq<T>, p: nat, y: T)
    requires p < |s| && NoDup(s) && y in s && y != s[p]
    ensures y in Cut(s, p)
    ensures Find(Cut(s, p), y) == if Find(s, y) < p then Find(s, y) else Find(s, y) - 1
  {
    CutFacts(s, p);
    var f := Find(s, y);
    FindUnique(Cut(s, p), if f < p then f else f - 1);
  }

  // Inserting behind the index lengthens the wait of exactly one item: the one at the index.
  lemma InsertEndDistance<T>(r: Ring<T>, x: T, y: T)
    requires r.Valid() && x !in r.items && y in r.items
    ensures y in r.InsertEnd(x).items
    ensures Distance(r.InsertEnd(x), y) ==
      Distance(r, y) + if r.index > 0 && r.Current() == y then 1 else 0
  {
    hide NoDup, Find, Paste;
    InsertEndFind(r, x, y);
    CurrentIs(r, y);
  }

  lemma CurrentIs<T>(r: Ring<T>, y: T)
    requires r.Valid() && y in r.items
    ensures r.index > 0 ==> (r.Current() == y <==> Find(r.items, y) == r.index - 1)
  {
    if r.index > 0 { FindUnique(r.items, r.index - 1); }
  }

  lemma InsertEndFind<T>(r: Ring<T>, x: T, y: T)
    requires r.Valid() && x !in r.items && y in r.items
    ensures y in r.InsertEnd(x).items && |r.InsertEnd(x).items| == |r.items| + 1
    ensures Find(r.InsertEnd(x).items, y) ==
      Find(r.items, y) + if r.index > 0 && Find(r.items, y) >= r.index - 1 then 1 else 0
  {
    hide NoDup, Find;
    var place := if r.index == 0 then |r.items| else r.index - 1;
    PasteFind(r.items, place, x, y);
    assert Paste(r.items, |r.items|, x) == r.items + [x];
  }

  // The new item itself comes after all others, but before one that the index is on.
  lemma InsertEndIsLast<T>(r: Ring<T>, x: T)
    requires r.Valid() && x !in r.items
    ensures x in r.InsertEnd(x).items && r.InsertEnd(x).index <= |r.InsertEnd(x).items|
    ensures Distance(r.InsertEnd(x), x) == |r.items| + if r.index == 0 then 1 else 0
  {
    InsertEndFacts(r, x);
    FindUnique(r.InsertEnd(x).items, if r.index == 0 then |r.items| else r.index - 1);
    hide NoDup, Find;
  }

  // Removing another item shortens the wait by one if it was to come first, and leaves it otherwise.
  lemma RemoveDistance<T>(r: Ring<T>, x: T, y: T)
    requires r.Valid() && x in r.items && y in r.items && x != y
    ensures y in r.Remove(x).items && r.Remove(x).index <= |r.Remove(x).items|
    ensures Distance(r.Remove(x), y) == Distance(r, y) - if Distance(r, x) < Distance(r, y) then 1 else 0
  {
    RemoveFacts(r, x);
    CutFind(r.items, Find(r.items, x), y);
    FindApart(r.items, x, y);
    hide NoDup, Find, Cut;
  }

  lemma FindApart<T>(s: seq<T>, x: T, y: T)
    requires x in s && y in s && x != y
    ensures Find(s, x) != Find(s, y)
  {
  }

  // So the distance alone does not bound the wait: item 1, at distance 1, is moved away by the
  // item at the index leaving and coming back.
  lemma DistanceCanGrow()
    ensures var r := Ring([1, 2], 2);
      && r.Valid() && r.Current() == 2
      && Distance(r.Remove(2), 1) == Distance(r, 1) == 1
      && Distance(r.Remove(2).InsertEnd(2), 1) == 2
  {
    var r := Ring([1, 2], 2);
    assert Find(r.items, 1) == 0;
    FindUnique(r.items, 1);
    assert Find(r.items, 2) == 1;
    assert r.Remove(2) == Ring([1], 1);
    assert r.Remove(2).InsertEnd(2) == Ring([2, 1], 2);
    FindUnique([2, 1], 1);
  }

  datatype Op<T> = Select | Add(x: T) | Drop(x: T)

  predicate Legal<T(==)>(r: Ring<T>, op: Op<T>, m: nat) {
    && r.index <= |r.items|
    && match op
       case Select => r.items != []
       case Add(x) => x !in r.items && |r.items| < m
       case Drop(x) => x in r.items
  }

  function ApplyOp<T(==)>(r: Ring<T>, op: Op<T>): Ring<T>
    requires r.index <= |r.items|
    requires op.Select? ==> r.items != []
    requires op.Drop? ==> op.x in r.items
  {
    match op
    case Select => r.Next()
    case Add(x) => r.InsertEnd(x)
    case Drop(x) => r.Remove(x)
  }

  lemma SelectLowersWait<T>(r: Ring<T>, x: T, m: nat)
    requires r.Valid() && x in r.items && |r.items| <= m && r.Next().Current() != x
    ensures Wait(r.Next(), x, m) < Wait(r, x, m)
  {
    FindUnique(r.items, r.Next().index - 1);
  }

  lemma InsertEndKeepsWait<T>(r: Ring<T>, y: T, x: T, m: nat)
    requires r.Valid() && x in r.items && y !in r.items
    ensures x in r.InsertEnd(y).items && Wait(r.InsertEnd(y), x, m) == Wait(r, x, m)
  {
    InsertEndFacts(r, y);
    PasteFind(r.items, if r.index == 0 then |r.items| else r.index - 1, y, x);
    assert r.index == 0 ==> Paste(r.items, |r.items|, y) == r.items + [y];
  }

  lemma RemoveKeepsWait<T>(r: Ring<T>, y: T, x: T, m: nat)
    requires r.Valid() && x in r.items && y in r.items && x != y
    ensures x in r.Remove(y).items && Wait(r.Remove(y), x, m) <= Wait(r, x, m)
  {
    RemoveFacts(r, y);
    CutFind(r.items, Find(r.items, y), x);
  }

  // One operation never raises the bound, and a selection of another item lowers it.
  lemma WaitStep<T>(r: Ring<T>, op: Op<T>, x: T, m: nat)
    requires r.Valid() && x in r.items && |r.items| <= m && Legal(r, op, m) && op != Drop(x)
    ensures var s := ApplyOp(r, op);
      && s.Valid() && x in s.items && |s.items| <= m
      && ((op.Select? && s.Current() == x) || Wait(s, x, m) <= Wait(r, x, m))
      && (op.Select? && s.Current() != x ==> Wait(s, x, m) < Wait(r, x, m))
  {
    match op
    case Select =>
      if r.Next().Current() != x { SelectLowersWait(r, x, m); }
    case Add(y) =>
      InsertEndFacts(r, y);
      InsertEndKeepsWait(r, y, x, m);
    case Drop(y) =>
      RemoveFacts(r, y);
      RemoveKeepsWait(r, y, x, m);
  }

  ghost predicate LegalRun<T>(r: Ring<T>, ops: seq<Op<T>>, m: nat)
    decreases |ops|
  {
    ops == [] || (Legal(r, ops[0], m) && LegalRun(ApplyOp(r, ops[0]), ops[1..], m))
  }

  function Selections<T>(ops: seq<Op<T>>): nat {
    if ops == [] then 0 else (if ops[0].Select? then 1 else 0) + Selections(ops[1..])
  }

  // x is the outcome of some selection of the run.
  ghost predicate Chosen<T>(r: Ring<T>, ops: seq<Op<T>>, m: nat, x: T)
    requires LegalRun(r, ops, m)
    decreases |ops|
  {
    ops != [] &&
    (|| (ops[0].Select? && r.Next().Current() == x)
     || Chosen(ApplyOp(r, ops[0]), ops[1..], m, x))
  }

  // Bounded waiting over every run: while x stays in a list that never holds more than m items,
  // it is chosen within Wait(r, x, m) < 2m + 1 selections.
  lemma {:induction false} BoundedWaiting<T>(r: Ring<T>, ops: seq<Op<T>>, x: T, m: nat)
    requires r.Valid() && x in r.items && |r.items| <= m && LegalRun(r, ops, m)
    requires Drop(x) !in ops
    requires Selections(ops) >= Wait(r, x, m)
    ensures Chosen(r, ops, m, x) && Wait(r, x, m) <= 2 * m
    decreases |ops|
  {
    WaitStep(r, ops[0], x, m);
    var s := ApplyOp(r, ops[0]);
    if !(ops[0].Select? && s.Current() == x) {
      BoundedWaiting(s, ops[1..], x, m);
    }
  }

  // No insertion of the run finds the index on x.
  ghost predicate NeverBehind<T>(r: Ring<T>, ops: seq<Op<T>>, m: nat, x: T)
    requires LegalRun(r, ops, m)
    decreases |ops|
  {
    ops == [] ||
    (&& !(ops[0].Add? && r.index > 0 && r.Current() == x)
     && NeverBehind(ApplyOp(r, ops[0]), ops[1..], m, x))
  }

  // In such a run the distance bounds the wait: x is chosen within that many selections.
  lemma {:induction false} ChosenWithinDistance<T>(r: Ring<T>, ops: seq<Op<T>>, x: T, m: nat)
    requires r.Valid() && x in r.items && LegalRun(r, ops, m) && NeverBehind(r, ops, m, x)
    requires Drop(x) !in ops
    requires Selections(ops) >= Distance(r, x)
    ensures Chosen(r, ops, m, x)
    decreases |ops|
  {
    DistanceStep(r, ops[0], x, m);
    var s := ApplyOp(r, ops[0]);
    if !(ops[0].Select? && s.Current() == x) {
      ChosenWithinDistance(s, ops[1..], x, m);
    }
  }

  lemma DistanceStep<T>(r: Ring<T>, op: Op<T>, x: T, m: nat)
    requires r.Valid() && x in r.items && Legal(r, op, m) && op != Drop(x)
    requires !(op.Add? && r.index > 0 && r.Current() == x)
    ensures var s := ApplyOp(r, op);
      && s.Valid() && x in s.items
      && (op.Select? && s.Current() != x ==> Distance(s, x) == Distance(r, x) - 1)
      && (!op.Select? ==> Distance(s, x) <= Distance(r, x))
  {
    match op
    case Select => DistanceIsExact(r, x);
    case Add(y) =>
      InsertEndFacts(r, y);
      InsertEndDistance(r, y, x);
    case Drop(y) =>
      RemoveFacts(r, y);
      RemoveDistance(r, y, x);
  }
}
