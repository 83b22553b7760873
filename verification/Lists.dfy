// list.c: the circular doubly linked list with an end marker and a roving index that holds
// every task and timer of the kernel. Each operation is proved to act on the linked heap
// structure as the corresponding operation acts on a Rings.Ring.
module Lists {
  import opened Rings

  // portMAX_DELAY, the value of every end marker.
  const MAX_DELAY: nat := 0xffff
  // UBaseType_t is an unsigned char in this port, so the item count wraps here.
  const COUNT_RANGE: nat := 0x100

  // The ring operations with the end marker kept in front of the items.
  lemma InsertEndBehindEnd<T>(s: seq<T>, k: nat, x: T)
    requires k < |s|
    ensures var t := Paste(s, if k == 0 then |s| else k, x); var k' := if k == 0 then 0 else k + 1;
      && |t| == |s| + 1 && t[0] == s[0] && t[k'] == s[k]
      && Ring(t[1..], k') == Ring(s[1..], k).InsertEnd(x)
  {
    var t := Paste(s, if k == 0 then |s| else k, x);
    assert k > 0 ==> t[1..] == Paste(s[1..], k - 1, x);
    assert k == 0 ==> t[1..] == s[1..] + [x];
  }

  lemma InsertAtBehindEnd<T>(s: seq<T>, k: nat, p: nat, x: T)
    requires k < |s| && p < |s|
    ensures var t := Paste(s, p + 1, x); var k' := if p < k then k + 1 else k;
      && |t| == |s| + 1 && t[0] == s[0] && t[k'] == s[k]
      && Ring(t[1..], k') == Ring(s[1..], k).InsertAt(p, x)
  {
    assert Paste(s, p + 1, x)[1..] == Paste(s[1..], p, x);
  }

  lemma CutBehindEnd<T>(s: seq<T>, x: T, k: nat)
    requires x in s && s[0] != x && NoDup(s) && k < |s|
    ensures var p := Find(s, x);
      && 0 < p < |s|
      && x in s[1..] && Find(s[1..], x) == p - 1
      && var t := Cut(s, p);
      && |t| == |s| - 1 && t[0] == s[0] && t[if k < p then k else k - 1] == (if k == p then s[k - 1] else s[k])
      && t[1..] == Cut(s[1..], p - 1)
  {
    FindBehindEnd(s, x);
    CutTail(s, Find(s, x), k);
    hide NoDup, Find, Cut;
  }

  lemma FindBehindEnd<T>(s: seq<T>, x: T)
    requires x in s && s[0] != x && NoDup(s)
    ensures 0 < Find(s, x) < |s| && x in s[1..] && Find(s[1..], x) == Find(s, x) - 1
  {
    var p := Find(s, x);
    assert s[1..][p - 1] == x;
    FindUnique(s[1..], p - 1);
  }

  lemma CutTail<T>(s: seq<T>, p: nat, k: nat)
    requires 0 < p < |s| && k < |s|
    ensures var t := Cut(s, p);
      && |t| == |s| - 1 && t[0] == s[0] && t[if k < p then k else k - 1] == (if k == p then s[k - 1] else s[k])
      && t[1..] == Cut(s[1..], p - 1)
  {
    assert s[1..][..p - 1] == s[1..p] && s[1..][p..] == s[p + 1..];
    assert Cut(s, p)[1..] == s[1..p] + s[p + 1..];
  }

  ghost function Nexts(s: seq<ListItem>): map<ListItem, ListItem?>
    reads s
  {
    map x | x in s :: x.next
  }

  ghost function Previouses(s: seq<ListItem>): map<ListItem, ListItem?>
    reads s
  {
    map x | x in s :: x.previous
  }

  // Names the positions a proof looks at; the facts about a ring are only unfolded for those.
  ghost predicate Slot(i: int) { true }

  // s is one closed cycle of its links, next and previous inverse to each other.
  ghost predicate Closed(s: seq<ListItem>, next: map<ListItem, ListItem?>, previous: map<ListItem, ListItem?>) {
    && (forall i, j {:trigger Slot(i), Slot(j)} :: Slot(i) && Slot(j) && 0 <= i < j < |s| ==> s[i] != s[j])
    && (forall i {:trigger Slot(i)} :: Slot(i) && 0 <= i < |s| ==>
          && s[i] in next && next[s[i]] == s[After(s, i)]
          && s[i] in previous && previous[s[i]] == s[Before(s, i)])
  }

  ghost function After(s: seq<ListItem>, i: nat): (j: nat)
    requires i < |s|
    ensures j < |s|
  {
    if i == |s| - 1 then 0 else i + 1
  }

  ghost function Before(s: seq<ListItem>, i: nat): (j: nat)
    requires i < |s|
    ensures j < |s|
  {
    if i == 0 then |s| - 1 else i - 1
  }

  ghost predicate Linked(s: seq<ListItem>)
    reads s
  {
    Closed(s, Nexts(s), Previouses(s))
  }

  // The container is set for the members; the end marker, in front, has none.
  ghost predicate Owned(s: seq<ListItem>, list: List)
    reads s
  {
    && (forall i {:trigger Slot(i)} :: Slot(i) && 0 < i < |s| ==> s[i].container == list)
    && (forall i {:trigger Slot(i)} :: Slot(i) && 0 <= i < |s| ==> s[i].value <= MAX_DELAY)
  }

  lemma LinkedIsDistinct(s: seq<ListItem>)
    requires Linked(s)
    ensures NoDup(s)
  {
    forall i, j | 0 <= i < j < |s| ensures s[i] != s[j] {
      assert Slot(i) && Slot(j);
    }
  }

  // Linking x in at position p, and unlinking the item at position p, keep the cycle closed.
  lemma LinkKeepsDistinct(s: seq<ListItem>, p: nat, x: ListItem, i: nat, j: nat)
    requires forall i, j {:trigger Slot(i), Slot(j)} :: Slot(i) && Slot(j) && 0 <= i < j < |s| ==> s[i] != s[j]
    requires p <= |s| && x !in s && i < j <= |s|
    ensures Paste(s, p, x)[i] != Paste(s, p, x)[j]
  {
    assert Slot(if i < p then i else i - 1) && Slot(if j < p then j else j - 1);
  }

  lemma LinkKeepsLinks(s: seq<ListItem>, next: map<ListItem, ListItem?>, previous: map<ListItem, ListItem?>,
                       p: nat, x: ListItem,
                       next': map<ListItem, ListItem?>, previous': map<ListItem, ListItem?>, i: nat)
    requires Closed(s, next, previous) && 0 < p <= |s| && x !in s && i <= |s|
    requires var l, r := s[p - 1], s[if p == |s| then 0 else p];
      next' == next[x := r][l := x] && previous' == previous[x := l][r := x]
    ensures var t := Paste(s, p, x);
      && t[i] in next' && next'[t[i]] == t[After(t, i)]
      && t[i] in previous' && previous'[t[i]] == t[Before(t, i)]
  {
    assert Slot(p - 1) && Slot(if p == |s| then 0 else p) && Slot(if i < p then i else i - 1);
  }

  lemma LinkKeepsClosed(s: seq<ListItem>, next: map<ListItem, ListItem?>, previous: map<ListItem, ListItem?>,
                        p: nat, x: ListItem, next': map<ListItem, ListItem?>, previous': map<ListItem, ListItem?>)
    requires Closed(s, next, previous) && 0 < p <= |s| && x !in s
    requires var l, r := s[p - 1], s[if p == |s| then 0 else p];
      next' == next[x := r][l := x] && previous' == previous[x := l][r := x]
    ensures Closed(Paste(s, p, x), next', previous')
  {
    forall i, j | 0 <= i < j <= |s| ensures Paste(s, p, x)[i] != Paste(s, p, x)[j] {
      LinkKeepsDistinct(s, p, x, i, j);
    }
    forall i | 0 <= i <= |s|
      ensures var t := Paste(s, p, x);
        && t[i] in next' && next'[t[i]] == t[After(t, i)]
        && t[i] in previous' && previous'[t[i]] == t[Before(t, i)]
    {
      LinkKeepsLinks(s, next, previous, p, x, next', previous', i);
    }
  }

  lemma UnlinkKeepsDistinct(s: seq<ListItem>, p: nat, i: nat, j: nat)
    requires forall i, j {:trigger Slot(i), Slot(j)} :: Slot(i) && Slot(j) && 0 <= i < j < |s| ==> s[i] != s[j]
    requires p < |s| && i < j < |s| - 1
    ensures Cut(s, p)[i] != Cut(s, p)[j]
  {
    assert Slot(if i < p then i else i + 1) && Slot(if j < p then j else j + 1);
  }

  lemma UnlinkKeepsLinks(s: seq<ListItem>, next: map<ListItem, ListItem?>, previous: map<ListItem, ListItem?>,
                         p: nat, next': map<ListItem, ListItem?>, previous': map<ListItem, ListItem?>, i: nat)
    requires Closed(s, next, previous) && 0 < p < |s| && i < |s| - 1
    requires next' == next[s[p - 1] := s[After(s, p)]] - {s[p]}
    requires previous' == previous[s[After(s, p)] := s[p - 1]] - {s[p]}
    ensures var t := Cut(s, p);
      && t[i] in next' && next'[t[i]] == t[After(t, i)]
      && t[i] in previous' && previous'[t[i]] == t[Before(t, i)]
  {
    assert Slot(p) && Slot(p - 1) && Slot(After(s, p)) && Slot(if i < p then i else i + 1);
  }

  lemma UnlinkKeepsClosed(s: seq<ListItem>, next: map<ListItem, ListItem?>, previous: map<ListItem, ListItem?>,
                          p: nat, next': map<ListItem, ListItem?>, previous': map<ListItem, ListItem?>)
    requires Closed(s, next, previous) && 0 < p < |s|
    requires next' == next[s[p - 1] := s[After(s, p)]] - {s[p]}
    requires previous' == previous[s[After(s, p)] := s[p - 1]] - {s[p]}
    ensures Closed(Cut(s, p), next', previous')
  {
    forall i, j | 0 <= i < j < |s| - 1 ensures Cut(s, p)[i] != Cut(s, p)[j] {
      UnlinkKeepsDistinct(s, p, i, j);
    }
    forall i | 0 <= i < |s| - 1
      ensures var t := Cut(s, p);
        && t[i] in next' && next'[t[i]] == t[After(t, i)]
        && t[i] in previous' && previous'[t[i]] == t[Before(t, i)]
    {
      UnlinkKeepsLinks(s, next, previous, p, next', previous', i);
    }
  }

  lemma PasteMembers<T>(s: seq<T>, p: nat, x: T)
    requires p <= |s|
    ensures x in Paste(s, p, x) && forall y :: y in s ==> y in Paste(s, p, x)
  {
    assert Paste(s, p, x)[p] == x;
    forall y | y in s ensures y in Paste(s, p, x) {
      var i :| 0 <= i < |s| && s[i] == y;
      assert Paste(s, p, x)[if i < p then i else i + 1] == y;
    }
  }

  lemma CutMembers<T>(s: seq<T>, p: nat)
    requires p < |s|
    ensures forall y :: y in s && y != s[p] ==> y in Cut(s, p)
  {
    forall y | y in s && y != s[p] ensures y in Cut(s, p) {
      var i :| 0 <= i < |s| && s[i] == y;
      assert Cut(s, p)[if i < p then i else i - 1] == y;
    }
  }

  lemma PasteLength<T>(s: seq<T>, p: nat, x: T)
    requires p <= |s|
    ensures |Paste(s, p, x)| == |s| + 1
  {
  }

  lemma OwnedPaste(s: seq<ListItem>, p: nat, x: ListItem, list: List)
    requires Owned(s, list) && 0 < p <= |s| && x.container == list && x.value <= MAX_DELAY
    ensures Owned(Paste(s, p, x), list)
  {
    forall i | 0 <= i < |s| + 1
      ensures var y := Paste(s, p, x)[i]; (0 < i ==> y.container == list) && y.value <= MAX_DELAY
    {
      assert Slot(if i < p then i else i - 1);
    }
  }

  lemma OwnedCut(s: seq<ListItem>, p: nat, list: List)
    requires 0 < p < |s|
    requires forall i {:trigger Slot(i)} :: Slot(i) && 0 < i < |s| && i != p ==> s[i].container == list
    requires forall i {:trigger Slot(i)} :: Slot(i) && 0 <= i < |s| ==> s[i].value <= MAX_DELAY
    ensures Owned(Cut(s, p), list)
  {
    forall i | 0 <= i < |s| - 1
      ensures var y := Cut(s, p)[i]; (0 < i ==> y.container == list) && y.value <= MAX_DELAY
    {
      assert Slot(if i < p then i else i + 1);
    }
  }

  lemma NextIsEnd(s: seq<ListItem>, i: nat)
    requires Linked(s) && i < |s|
    ensures s[After(s, i)] == s[0] <==> After(s, i) == 0
  {
    assert Slot(0) && Slot(After(s, i));
  }

  // What removing item from a ring whose index is at position k comes to.
  lemma Place(s: seq<ListItem>, item: ListItem, k: nat) returns (p: nat)
    requires Linked(s) && item in s && s[0] != item && k < |s|
    ensures 0 < p < |s| && s[p] == item && (s[k] == item <==> k == p)
    ensures item.previous == s[p - 1] && item.next == s[After(s, p)]
    ensures var t := Cut(s, p); var k' := if p <= k then k - 1 else k;
      && |t| == |s| - 1 && t[0] == s[0] && t[k'] == (if k == p then s[p - 1] else s[k])
      && item in s[1..] && Ring(t[1..], k') == Ring(s[1..], k).Remove(item)
  {
    LinkedIsDistinct(s);
    CutBehindEnd(s, item, k);
    p := Find(s, item);
    Neighbours(s, p);
  }

  // UBaseType_t arithmetic.
  function Increment(c: nat): nat { if c == COUNT_RANGE - 1 then 0 else c + 1 }

  function Decrement(c: nat): nat { if c == 0 then COUNT_RANGE - 1 else c - 1 }

  // What uxNumberOfItems shows for n items.
  ghost function Wrapped(n: nat): (c: nat)
    ensures c < COUNT_RANGE
  {
    if n == 0 then 0 else Increment(Wrapped(n - 1))
  }

  lemma {:induction false} WrappedIsModulo(n: nat)
    ensures Wrapped(n) == n % COUNT_RANGE
  {
    if n > 0 { WrappedIsModulo(n - 1); }
  }

  class ListItem {
    var value: nat
    var next: ListItem?
    var previous: ListItem?
    var container: List?

    // A container is named by its members alone: an item that names a list is on it, and is not its end
    // marker. Every operation on any list keeps this for every item there is.
    ghost predicate Contained()
      reads this, container
    {
      container != null ==> this in container.ring && this != container.end
    }

    // vListInitialiseItem
    constructor (v: nat)
      ensures value == v && container == null && Contained()
    {
      value := v;
      container := null;
    }
  }

  // The four pointer writes that put item between the neighbours l and r.
  method WriteLinks(item: ListItem, l: ListItem, r: ListItem, ghost s: seq<ListItem>, ghost s': seq<ListItem>)
    requires item !in s && l in s && r in s
    requires forall y :: y in s' <==> y in s || y == item
    modifies item`next, item`previous, l`next, r`previous
    ensures item.next == r && item.previous == l
    ensures Nexts(s') == old(Nexts(s))[item := r][l := item]
    ensures Previouses(s') == old(Previouses(s))[item := l][r := item]
  {
    item.next := r;
    item.previous := l;
    l.next := item;
    r.previous := item;
  }

  method Link(item: ListItem, l: ListItem, r: ListItem, ghost s: seq<ListItem>, ghost p: nat)
    requires Linked(s) && item !in s && 0 < p <= |s|
    requires l == s[p - 1] && r == s[if p == |s| then 0 else p]
    modifies item`next, item`previous, l`next, r`previous
    ensures Linked(Paste(s, p, item))
  {
    ghost var nx, pv := Nexts(s), Previouses(s);
    LinkedIsDistinct(s);
    PasteFacts(s, p, item);
    WriteLinks(item, l, r, s, Paste(s, p, item));
    LinkKeepsClosed(s, nx, pv, p, item, Nexts(Paste(s, p, item)), Previouses(Paste(s, p, item)));
  }

  // The two pointer writes that take item out.
  method WriteUnlink(item: ListItem, l: ListItem, r: ListItem, ghost s: seq<ListItem>, ghost s': seq<ListItem>)
    requires item in s && l in s && r in s && item.next == r && item.previous == l
    requires forall y :: y in s' <==> y in s && y != item
    modifies l`next, r`previous
    ensures Nexts(s') == old(Nexts(s))[l := r] - {item}
    ensures Previouses(s') == old(Previouses(s))[r := l] - {item}
  {
    r.previous := item.previous;
    l.next := item.next;
  }

  method Unlink(item: ListItem, l: ListItem, r: ListItem, ghost s: seq<ListItem>, ghost p: nat)
    requires Linked(s) && 0 < p < |s| && item == s[p] && item.next == r && item.previous == l
    requires l == s[p - 1] && r == s[After(s, p)]
    modifies l`next, r`previous
    ensures Linked(Cut(s, p))
  {
    ghost var nx, pv := Nexts(s), Previouses(s);
    LinkedIsDistinct(s);
    CutFacts(s, p);
    WriteUnlink(item, l, r, s, Cut(s, p));
    UnlinkKeepsClosed(s, nx, pv, p, Nexts(Cut(s, p)), Previouses(Cut(s, p)));
  }

  lemma Neighbours(s: seq<ListItem>, p: nat)
    requires Linked(s) && p < |s|
    ensures s[p].next == s[After(s, p)]
    ensures s[p].previous == s[Before(s, p)]
  {
    assert Slot(p) && Nexts(s)[s[p]] == s[p].next && Previouses(s)[s[p]] == s[p].previous;
  }

  class List {
    var count: nat
    var pxIndex: ListItem
    const end: ListItem

    // The end marker followed by the items in link order, and the place of pxIndex in it.
    ghost var ring: seq<ListItem>
    ghost var at: nat

    // The ring is closed and owned by this list, and the index is on it.
    ghost predicate Valid()
      reads this, ring
    {
      && ring != [] && ring[0] == end
      && Linked(ring) && Owned(ring, this)
      && end.value == MAX_DELAY
      && at < |ring| && pxIndex == ring[at]
      && count == Wrapped(|ring| - 1)
    }

    ghost function Abs(): (r: Ring<ListItem>)
      reads this
      requires ring != []
    {
      Ring(ring[1..], at)
    }

    ghost function Values(): (v: seq<nat>)
      reads this, ring
      requires ring != []
      ensures |v| == |ring| - 1
    {
      seq(|ring| - 1, i requires 0 <= i < |ring| - 1 reads this, ring => ring[i + 1].value)
    }

    // vListInitialise
    constructor ()
      ensures Valid() && Abs() == Ring([], 0)
      ensures fresh(end)
    {
      var e := new ListItem(MAX_DELAY);
      end := e;
      pxIndex := e;
      count := 0;
      ring := [e];
      at := 0;
      new;
      end.next := end;
      end.previous := end;
    }

    // listLIST_IS_EMPTY. The count is exact below 256 items; from there on it wraps.
    method IsEmpty() returns (empty: bool)
      requires Valid()
      ensures empty <==> |Abs().items| % COUNT_RANGE == 0
      ensures |Abs().items| < COUNT_RANGE ==> (empty <==> Abs().items == [])
    {
      WrappedIsModulo(|ring| - 1);
      empty := count == 0;
    }

    // An item in no list is not on this one.
    lemma NotMember(item: ListItem)
      requires Valid() && item.container == null && item != end
      ensures item !in ring
    {
      forall i | 0 <= i < |ring| ensures ring[i] != item { assert Slot(i); }
    }

    method LinkOwned(item: ListItem, l: ListItem, r: ListItem, ghost s: seq<ListItem>, ghost p: nat)
      requires Linked(s) && Owned(s, this) && item !in s && 0 < p <= |s|
      requires l == s[p - 1] && r == s[if p == |s| then 0 else p]
      modifies item`next, item`previous, l`next, r`previous
      ensures Linked(Paste(s, p, item)) && Owned(s, this)
    {
      hide Linked;
      Link(item, l, r, s, p);
    }

    method Claim(item: ListItem, ghost s: seq<ListItem>, ghost p: nat)
      requires Owned(s, this) && 0 < p <= |s| && item !in s && item.value <= MAX_DELAY && Linked(Paste(s, p, item))
      modifies item`container
      ensures Owned(Paste(s, p, item), this) && Linked(Paste(s, p, item)) && item.container == this
    {
      item.container := this;
      OwnedPaste(s, p, item, this);
    }

    // The common part of the two insertions: link item in at position p and adopt it.
    method Adopt(item: ListItem, l: ListItem, r: ListItem, ghost p: nat)
      requires Linked(ring) && Owned(ring, this) && item !in ring && item.value <= MAX_DELAY
      requires ring != [] && count == Wrapped(|ring| - 1)
      requires 0 < p <= |ring| && l == ring[p - 1] && r == ring[if p == |ring| then 0 else p]
      modifies item`next, item`previous, item`container, l`next, r`previous, this`count, this`ring
      ensures Linked(ring) && Owned(ring, this) && ring == Paste(old(ring), p, item)
      ensures count == Wrapped(|ring| - 1) && item.container == this
    {
      hide Linked, Owned, Paste;
      PasteLength(ring, p, item);
      LinkOwned(item, l, r, ring, p);
      Claim(item, ring, p);
      ring := Paste(ring, p, item);
      count := Increment(count);
    }

    method PutIn(item: ListItem, l: ListItem, r: ListItem, ghost p: nat, ghost k: nat)
      requires Valid() && item !in ring && item.value <= MAX_DELAY
      requires 0 < p <= |ring| && l == ring[p - 1] && r == ring[if p == |ring| then 0 else p]
      requires k <= |ring| && Paste(ring, p, item)[k] == pxIndex
      modifies item`next, item`previous, item`container, l`next, r`previous, this`count, this`ring, this`at
      ensures Valid() && ring == Paste(old(ring), p, item) && at == k && item.container == this
      ensures forall y: ListItem :: old(allocated(y) && y.Contained()) ==> y.Contained()
    {
      hide Linked, Owned;
      PasteMembers(ring, p, item);
      Adopt(item, l, r, p);
      at := k;
    }

    // vListInsertEnd
    method InsertEnd(item: ListItem)
      requires Valid() && item.container == null && item != end && item.value <= MAX_DELAY
      modifies item`next, item`previous, item`container, ring`next, ring`previous, this`count, this`ring, this`at
      ensures Valid() && Abs() == old(Abs()).InsertEnd(item) && item.container == this
      ensures forall y: ListItem :: old(allocated(y) && y.Contained()) ==> y.Contained()
    {
      NotMember(item);
      hide Linked, Owned, Paste;
      Neighbours(ring, at);
      InsertEndBehindEnd(ring, at, item);
      PutIn(item, pxIndex.previous, pxIndex, if at == 0 then |ring| else at, if at == 0 then 0 else at + 1);
    }

    // vListInsert: the search starts at the end marker and stops at the first greater value;
    // the greatest value of all is linked last without a search, which the search could not do.
    method Insert(item: ListItem)
      requires Valid() && item.container == null && item != end && item.value <= MAX_DELAY
      modifies item`next, item`previous, item`container, ring`next, ring`previous, this`count, this`ring, this`at
      ensures Valid() && Abs() == old(Abs()).InsertAt(FirstGreater(old(Values()), item.value), item)
      ensures item.container == this
      ensures forall y: ListItem :: old(allocated(y) && y.Contained()) ==> y.Contained()
    {
      NotMember(item);
      var pos, p := Search(item.value);
      InsertAfter(item, pos, p);
    }

    method InsertAfter(item: ListItem, pos: ListItem, ghost p: nat)
      requires Valid() && item !in ring && item.value <= MAX_DELAY && p < |ring| && pos == ring[p]
      modifies item`next, item`previous, item`container, ring`next, ring`previous, this`count, this`ring, this`at
      ensures Valid() && Abs() == old(Abs()).InsertAt(p, item) && item.container == this
      ensures forall y: ListItem :: old(allocated(y) && y.Contained()) ==> y.Contained()
    {
      hide Linked, Owned, Paste;
      Neighbours(ring, p);
      InsertAtBehindEnd(ring, at, p, item);
      PutIn(item, pos, pos.next, p + 1, if p < at then at + 1 else at);
    }

    method Search(value: nat) returns (pos: ListItem, ghost p: nat)
      requires Valid() && value <= MAX_DELAY
      ensures p == FirstGreater(Values(), value)
      ensures p < |ring| && pos == ring[FirstGreater(Values(), value)]
    {
      p := 0;
      assert Slot(0);
      Neighbours(ring, 0);
      if value == MAX_DELAY {
        pos := end.previous;
        p := |ring| - 1;
        forall i | 0 <= i < |ring| ensures ring[i].value <= value { assert Slot(i); }
      } else {
        pos := end;
        while pos.next.value <= value
          invariant 0 <= p < |ring| && pos == ring[p] && pos.next == ring[After(ring, p)]
          invariant forall i :: 0 < i <= p ==> ring[i].value <= value
          decreases |ring| - p
        {
          pos := pos.next;
          p := p + 1;
          Neighbours(ring, p);
        }
      }
      FirstGreaterIs(Values(), value, p);
    }

    method Disown(item: ListItem, ghost s: seq<ListItem>, ghost p: nat)
      requires Linked(s) && Owned(s, this) && 0 < p < |s| && item == s[p]
      requires item.previous == s[p - 1] && item.next == s[After(s, p)]
      modifies item`container, item.previous`next, item.next`previous
      ensures Linked(Cut(s, p)) && Owned(Cut(s, p), this) && item.container == null
    {
      assert forall i {:trigger Slot(i)} :: Slot(i) && 0 <= i < |s| && i != p ==> s[i] != item by {
        LinkedIsDistinct(s);
      }
      Unlink(item, item.previous, item.next, s, p);
      item.container := null;
      OwnedCut(s, p, this);
    }

    method Release(item: ListItem, ghost p: nat)
      requires Linked(ring) && Owned(ring, this) && 0 < p < |ring| && item == ring[p]
      requires item.previous == ring[p - 1] && item.next == ring[After(ring, p)]
      requires count == Wrapped(|ring| - 1)
      modifies item`container, item.previous`next, item.next`previous, this`ring, this`count
      ensures Linked(ring) && Owned(ring, this) && ring == Cut(old(ring), p)
      ensures item.container == null && count == Wrapped(|ring| - 1)
    {
      Disown(item, ring, p);
      ring := Cut(ring, p);
      count := Decrement(count);
    }

    // uxListRemove, on the list the item's container names.
    method Remove(item: ListItem) returns (left: nat)
      requires Valid() && item.container == this && item.Contained()
      modifies item`container, ring`next, ring`previous, this`count, this`ring, this`at, this`pxIndex
      ensures Valid() && item in old(Abs()).items && Abs() == old(Abs()).Remove(item)
      ensures left == count && item.container == null
      ensures forall y: ListItem :: old(allocated(y) && y.Contained()) ==> y.Contained()
    {
      hide Linked, Owned, Find, Cut, NoDup;
      ghost var p := Place(ring, item, at);
      left := TakeOut(item, p, if p <= at then at - 1 else at);
    }

    method TakeOut(item: ListItem, ghost p: nat, ghost k: nat) returns (left: nat)
      requires Valid() && 0 < p < |ring| && item == ring[p]
      requires item.previous == ring[p - 1] && item.next == ring[After(ring, p)]
      requires k < |ring| - 1 && Cut(ring, p)[k] == if pxIndex == item then item.previous else pxIndex
      modifies item`container, item.previous`next, item.next`previous, this`count, this`ring, this`at, this`pxIndex
      ensures Valid() && ring == Cut(old(ring), p) && at == k
      ensures left == count && item.container == null
      ensures forall y: ListItem :: old(allocated(y) && y.Contained()) ==> y.Contained()
    {
      CutMembers(ring, p);
      if pxIndex == item {
        pxIndex := item.previous;
      }
      Release(item, p);
      at := k;
      left := count;
    }

    // listGET_OWNER_OF_NEXT_ENTRY
    method NextEntry() returns (item: ListItem)
      requires Valid() && Abs().items != []
      modifies this`pxIndex, this`at
      ensures Valid() && Abs() == old(Abs()).Next() && item == Abs().Current()
    {
      Neighbours(ring, at);
      Neighbours(ring, 0);
      NextIsEnd(ring, at);
      hide Linked, Owned;
      pxIndex := pxIndex.next;
      at := After(ring, at);
      if pxIndex == end {
        pxIndex := pxIndex.next;
        at := 1;
      }
      item := pxIndex;
    }

    // listGET_OWNER_OF_HEAD_ENTRY
    method HeadEntry() returns (item: ListItem)
      requires Valid() && Abs().items != []
      ensures item == Abs().items[0]
    {
      Neighbours(ring, 0);
      item := end.next;
    }
  }

  lemma FirstGreaterIs(values: seq<nat>, v: nat, p: nat)
    requires p <= |values| && (forall i :: 0 <= i < p ==> values[i] <= v) && (p < |values| ==> values[p] > v)
    ensures FirstGreater(values, v) == p
  {
  }
}
