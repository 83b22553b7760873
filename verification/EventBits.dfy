// event_groups.c, bit by bit: what each call does to every single bit, what it returns and whom it
// releases, said without the bit operations the code uses.
module EventBits {
  import opened Rings
  import opened EventGroups

  type Index = i: nat | i < 16

  function Mask(i: Index): Bits {
    match i
    case 0 => 0x0001 case 1 => 0x0002 case 2 => 0x0004 case 3 => 0x0008
    case 4 => 0x0010 case 5 => 0x0020 case 6 => 0x0040 case 7 => 0x0080
    case 8 => 0x0100 case 9 => 0x0200 case 10 => 0x0400 case 11 => 0x0800
    case 12 => 0x1000 case 13 => 0x2000 case 14 => 0x4000 case _ => 0x8000
  }

  predicate Bit(b: Bits, i: Index) { And(b, Mask(i)) != 0 }

  // ---------------------------------------------------------------- bits and conditions

  predicate IsMask(m: Bits) {
    m == 0x0001 || m == 0x0002 || m == 0x0004 || m == 0x0008 ||
    m == 0x0010 || m == 0x0020 || m == 0x0040 || m == 0x0080 ||
    m == 0x0100 || m == 0x0200 || m == 0x0400 || m == 0x0800 ||
    m == 0x1000 || m == 0x2000 || m == 0x4000 || m == 0x8000
  }

  lemma MaskIs(i: Index)
    ensures IsMask(Mask(i))
  {
  }

  // One bit of a combination, for each of the sixteen.
  lemma MaskedOps(a: Bits, b: Bits, m: Bits)
    requires IsMask(m)
    ensures And(Or(a, b), m) != 0 <==> And(a, m) != 0 || And(b, m) != 0
    ensures And(AndNot(a, b), m) != 0 <==> And(a, m) != 0 && And(b, m) == 0
  {
    if m == 0x0001 {
    } else if m == 0x0002 {
    } else if m == 0x0004 {
    } else if m == 0x0008 {
    } else if m == 0x0010 {
    } else if m == 0x0020 {
    } else if m == 0x0040 {
    } else if m == 0x0080 {
    } else if m == 0x0100 {
    } else if m == 0x0200 {
    } else if m == 0x0400 {
    } else if m == 0x0800 {
    } else if m == 0x1000 {
    } else if m == 0x2000 {
    } else if m == 0x4000 {
    } else {
    }
  }

  lemma MaskedAnd(a: Bits, b: Bits, m: Bits)
    requires IsMask(m)
    ensures And(And(a, b), m) != 0 <==> And(a, m) != 0 && And(b, m) != 0
    ensures And(a, m) == 0 || And(a, m) == m
  {
    if m == 0x0001 {
    } else if m == 0x0002 {
    } else if m == 0x0004 {
    } else if m == 0x0008 {
    } else if m == 0x0010 {
    } else if m == 0x0020 {
    } else if m == 0x0040 {
    } else if m == 0x0080 {
    } else if m == 0x0100 {
    } else if m == 0x0200 {
    } else if m == 0x0400 {
    } else if m == 0x0800 {
    } else if m == 0x1000 {
    } else if m == 0x2000 {
    } else if m == 0x4000 {
    } else {
    }
  }

  lemma Masked(a: Bits, b: Bits, m: Bits)
    requires IsMask(m)
    ensures And(Or(a, b), m) != 0 <==> And(a, m) != 0 || And(b, m) != 0
    ensures And(AndNot(a, b), m) != 0 <==> And(a, m) != 0 && And(b, m) == 0
    ensures And(And(a, b), m) != 0 <==> And(a, m) != 0 && And(b, m) != 0
    ensures And(a, m) == 0 || And(a, m) == m
    ensures And(0, m) == 0
    ensures Disjoint(a, m) <==> And(a, m) == 0
  {
    hide IsMask, And, Or, AndNot, Disjoint;
    MaskedOps(a, b, m);
    MaskedAnd(a, b, m);
    NothingMasked(a, m);
  }

  lemma NothingMasked(a: Bits, m: Bits)
    ensures And(0, m) == 0
    ensures Disjoint(a, m) <==> And(a, m) == 0
  {
  }

  function And(a: Bits, b: Bits): Bits { a & b }

  lemma OrBit(a: Bits, b: Bits, i: Index)
    ensures Bit(Or(a, b), i) <==> Bit(a, i) || Bit(b, i)
  {
    hide Mask, Or, And;
    MaskIs(i);
    Masked(a, b, Mask(i));
  }

  lemma AndNotBit(a: Bits, b: Bits, i: Index)
    ensures Bit(AndNot(a, b), i) <==> Bit(a, i) && !Bit(b, i)
  {
    hide Mask, AndNot, And;
    MaskIs(i);
    Masked(a, b, Mask(i));
  }

  lemma AndBit(a: Bits, b: Bits, i: Index)
    ensures Bit(And(a, b), i) <==> Bit(a, i) && Bit(b, i)
  {
    hide Mask, And;
    MaskIs(i);
    Masked(a, b, Mask(i));
  }

  lemma DisjointBit(a: Bits, i: Index)
    ensures Disjoint(a, Mask(i)) <==> !Bit(a, i)
  {
    hide Mask, And, Disjoint;
    MaskIs(i);
    Masked(a, 0, Mask(i));
  }

  lemma NoBit(i: Index)
    ensures !Bit(0, i)
  {
    hide Mask, And;
    MaskIs(i);
    Masked(0, 0, Mask(i));
  }

  // Two values with the same bits are the same.
  lemma SameMasked(a: Bits, b: Bits)
    requires And(a, 0x0001) == And(b, 0x0001) && And(a, 0x0002) == And(b, 0x0002)
      && And(a, 0x0004) == And(b, 0x0004) && And(a, 0x0008) == And(b, 0x0008)
    requires And(a, 0x0010) == And(b, 0x0010) && And(a, 0x0020) == And(b, 0x0020)
      && And(a, 0x0040) == And(b, 0x0040) && And(a, 0x0080) == And(b, 0x0080)
    requires And(a, 0x0100) == And(b, 0x0100) && And(a, 0x0200) == And(b, 0x0200)
      && And(a, 0x0400) == And(b, 0x0400) && And(a, 0x0800) == And(b, 0x0800)
    requires And(a, 0x1000) == And(b, 0x1000) && And(a, 0x2000) == And(b, 0x2000)
      && And(a, 0x4000) == And(b, 0x4000) && And(a, 0x8000) == And(b, 0x8000)
    ensures a == b
  {
  }

  lemma SameBit(a: Bits, b: Bits, i: Index)
    requires Bit(a, i) <==> Bit(b, i)
    ensures And(a, Mask(i)) == And(b, Mask(i))
  {
    hide Mask, And;
    MaskIs(i);
    Masked(a, b, Mask(i));
    Masked(b, a, Mask(i));
  }

  lemma SameBits(a: Bits, b: Bits)
    requires forall i: Index :: Bit(a, i) <==> Bit(b, i)
    ensures a == b
  {
    hide Bit, And, Mask;
    forall i: Index ensures And(a, Mask(i)) == And(b, Mask(i)) { SameBit(a, b, i); }
    assert forall i: Index :: And(a, Mask(i)) == And(b, Mask(i));
    AllMasks(a, b);
  }

  lemma AllMasks(a: Bits, b: Bits)
    requires forall i: Index :: And(a, Mask(i)) == And(b, Mask(i))
    ensures a == b
  {
    hide And;
    assert And(a, Mask(0)) == And(b, Mask(0)) && And(a, Mask(1)) == And(b, Mask(1))
      && And(a, Mask(2)) == And(b, Mask(2)) && And(a, Mask(3)) == And(b, Mask(3));
    assert And(a, Mask(4)) == And(b, Mask(4)) && And(a, Mask(5)) == And(b, Mask(5))
      && And(a, Mask(6)) == And(b, Mask(6)) && And(a, Mask(7)) == And(b, Mask(7));
    assert And(a, Mask(8)) == And(b, Mask(8)) && And(a, Mask(9)) == And(b, Mask(9))
      && And(a, Mask(10)) == And(b, Mask(10)) && And(a, Mask(11)) == And(b, Mask(11));
    assert And(a, Mask(12)) == And(b, Mask(12)) && And(a, Mask(13)) == And(b, Mask(13))
      && And(a, Mask(14)) == And(b, Mask(14)) && And(a, Mask(15)) == And(b, Mask(15));
    SameMasked(a, b);
  }

  // The bits in hand: those set before and those that are being set.
  predicate Has(a: Bits, b: Bits, i: Index) { Bit(a, i) || Bit(b, i) }

  // The bits satisfy a call: all that it waits for are there, or any one, as it asks.
  predicate Satisfied(a: Bits, b: Bits, call: Call) {
    if call.all then forall i: Index :: Bit(call.bits, i) ==> Has(a, b, i)
    else exists i: Index :: Bit(call.bits, i) && Has(a, b, i)
  }

  lemma AllSetIsAll(bits: Bits, wanted: Bits)
    ensures AllSet(bits, wanted) <==> forall i: Index :: Bit(wanted, i) ==> Bit(bits, i)
  {
    hide Bit;
    forall i: Index ensures Bit(And(bits, wanted), i) <==> Bit(bits, i) && Bit(wanted, i) { AndBit(bits, wanted, i); }
    if forall i: Index :: Bit(wanted, i) ==> Bit(bits, i) { SameBits(And(bits, wanted), wanted); }
  }

  lemma AnySetIsAny(bits: Bits, wanted: Bits)
    ensures AnySet(bits, wanted) <==> exists i: Index :: Bit(wanted, i) && Bit(bits, i)
  {
    hide Bit;
    forall i: Index ensures (Bit(And(bits, wanted), i) <==> Bit(bits, i) && Bit(wanted, i)) && !Bit(0, i) {
      AndBit(bits, wanted, i);
      NoBit(i);
    }
    if !exists i: Index :: Bit(wanted, i) && Bit(bits, i) { SameBits(And(bits, wanted), 0); }
  }

  lemma MetIsSatisfied(a: Bits, b: Bits, call: Call)
    ensures Met(Or(a, b), call) <==> Satisfied(a, b, call)
  {
    hide Bit, Or, AllSet, AnySet;
    forall i: Index ensures Bit(Or(a, b), i) <==> Has(a, b, i) { OrBit(a, b, i); }
    AllSetIsAll(Or(a, b), call.bits);
    AnySetIsAny(Or(a, b), call.bits);
  }

  lemma OrZero(a: Bits)
    ensures Or(a, 0) == a
  {
  }

  lemma MetIsSatisfiedNow(bits: Bits, call: Call)
    ensures Met(bits, call) <==> Satisfied(bits, 0, call)
  {
    OrZero(bits);
    MetIsSatisfied(bits, 0, call);
  }

  // ---------------------------------------------------------------- setting and clearing

  // A waiting task whose call the bits satisfy wants bit i cleared.
  ghost predicate Wipes(s: System, toSet: Bits, i: Index) {
    exists t :: t in s.g.waiting && t in s.calls && Satisfied(s.g.bits, toSet, s.calls[t])
                && s.calls[t].clear && Bit(s.calls[t].bits, i)
  }

  // What setting bits leaves: a bit is set if it was or is being set, unless a task that is released
  // waited for it and clears what it waits for.
  ghost predicate SetBit(s: System, toSet: Bits, i: Index) {
    Has(s.g.bits, toSet, i) && !Wipes(s, toSet, i)
  }

  lemma SetBitsBit(s: System, toSet: Bits, i: Index)
    requires Inv(s) && Plain(toSet)
    ensures Bit(BitsSet(s.g, toSet).bits, i) <==> SetBit(s, toSet, i)
  {
    hide Inv, Plain, Met, Bit, Or, AndNot, Disjoint, ClearMask, Released, Satisfied;
    var bits := Or(s.g.bits, toSet);
    var mask := ClearMask(Released(s.g.waiting, s.g.value, bits), s.g.value);
    SetClearsExactly(s, toSet, Mask(i));
    OrBit(s.g.bits, toSet, i);
    AndNotBit(bits, mask, i);
    DisjointBit(mask, i);
    forall t | t in s.g.waiting && t in s.calls
      ensures Met(bits, s.calls[t]) <==> Satisfied(s.g.bits, toSet, s.calls[t])
      ensures Disjoint(s.calls[t].bits, Mask(i)) <==> !Bit(s.calls[t].bits, i)
    {
      MetIsSatisfied(s.g.bits, toSet, s.calls[t]);
      DisjointBit(s.calls[t].bits, i);
    }
  }

  // Exactly the tasks whose call is satisfied leave the list, the others stay in their order; whoever is
  // released will return the bits there were before any were cleared.
  lemma SetBitsReleases(s: System, toSet: Bits, t: Task, i: Index, later: Group)
    requires Inv(s) && Plain(toSet) && t in s.g.waiting
    ensures
      var r := Apply(s, SetBits(toSet));
      && t in s.calls && t in r.g.value
      && (t in r.g.waiting <==> !Satisfied(s.g.bits, toSet, s.calls[t]))
      && (t !in r.g.waiting ==> (Bit(FinalBits(later, r.g.value[t]), i) <==> Has(s.g.bits, toSet, i)))
  {
    hide Inv, Plain, Met, Bit, Or, AndNot, Satisfied, FinalBits;
    SetReleasesExactly(s, toSet, t);
    MetIsSatisfied(s.g.bits, toSet, s.calls[t]);
    OrBit(s.g.bits, toSet, i);
  }

  lemma SetBitsKeepsOrder(s: System, toSet: Bits)
    ensures IsSub(BitsSet(s.g, toSet).waiting, s.g.waiting)
  {
    RemainingIsSub(s.g.waiting, s.g.value, Or(s.g.bits, toSet));
  }

  // a is b with some members left out.
  predicate IsSub(a: seq<Task>, b: seq<Task>) {
    if b == [] then a == []
    else
      var front := b[..|b| - 1];
      IsSub(a, front) || (a != [] && a[|a| - 1] == b[|b| - 1] && IsSub(a[..|a| - 1], front))
  }

  lemma {:induction false} RemainingIsSub(waiting: seq<Task>, value: map<Task, Bits>, bits: Bits)
    ensures IsSub(Remaining(waiting, value, bits), waiting)
  {
    hide Matches;
    if waiting != [] {
      var front, t := waiting[..|waiting| - 1], waiting[|waiting| - 1];
      RemainingIsSub(front, value, bits);
      var r := Remaining(front, value, bits);
      assert (r + [t])[..|r|] == r;
      assert r + [] == r;
    }
  }

  // Clearing takes away the bits named and no other, and returns those there were.
  lemma ClearBitsBit(s: System, clear: Bits, i: Index)
    requires Plain(clear)
    ensures
      var r := Apply(s, ClearBits(clear));
      && (Bit(r.g.bits, i) <==> Bit(s.g.bits, i) && !Bit(clear, i))
      && r.g.waiting == s.g.waiting && r.g.value == s.g.value && r.calls == s.calls
  {
    AndNotBit(s.g.bits, clear, i);
  }

  // ---------------------------------------------------------------- waiting

  // A wait that is satisfied at once returns the bits there are and takes away those it waits for, if it
  // is to; one that is not returns them without taking any, or blocks at the end of the list.
  lemma WaitBitsMeans(s: System, t: Task, call: Call, block: bool, i: Index)
    requires Enabled(s, WaitBits(t, call, block))
    ensures
      var r, outcome := Apply(s, WaitBits(t, call, block)), WaitOutcome(s.g, call, block);
      if Satisfied(s.g.bits, 0, call) then
        && outcome == Returns(s.g.bits) && r.g.waiting == s.g.waiting && r.calls == s.calls
        && (Bit(r.g.bits, i) <==> Bit(s.g.bits, i) && !(call.clear && Bit(call.bits, i)))
      else if block then
        && outcome == EventGroups.Outcome.Blocked && r.g.waiting == s.g.waiting + [t] && r.calls == s.calls[t := call]
        && r.g.bits == s.g.bits
      else outcome == Returns(s.g.bits) && r == s
  {
    hide Bit, Met, Satisfied, AndNot;
    MetIsSatisfiedNow(s.g.bits, call);
    AndNotBit(s.g.bits, call.bits, i);
  }

  // A rendezvous sets its bits as setting them does. If all it waits for are there it returns them, with
  // whatever else was set, and leaves none of those it waits for; if not, it blocks or returns.
  lemma SyncMeans(s: System, t: Task, toSet: Bits, wait: Bits, block: bool, i: Index)
    requires Inv(s) && Enabled(s, Sync(t, toSet, wait, block))
    ensures
      var r, outcome := Apply(s, Sync(t, toSet, wait, block)), SyncOutcome(s.g, toSet, wait, block);
      if forall j: Index :: Bit(wait, j) ==> Has(s.g.bits, toSet, j) then
        && outcome.Returns? && (Bit(outcome.bits, i) <==> Has(s.g.bits, toSet, i))
        && (Bit(r.g.bits, i) <==> SetBit(s, toSet, i) && !Bit(wait, i)) && r.calls == s.calls
      else
        && (Bit(r.g.bits, i) <==> SetBit(s, toSet, i))
        && (if block then outcome.Blocked? && r.calls == s.calls[t := Call(wait, true, true)]
            else outcome == Returns(r.g.bits) && r.calls == s.calls)
    ensures
      var r, outcome := Apply(s, Sync(t, toSet, wait, block)), SyncOutcome(s.g, toSet, wait, block);
      r.g.waiting == Apply(s, SetBits(toSet)).g.waiting + if outcome.Blocked? then [t] else []
  {
    hide Inv, Bit, Or, AndNot, Met, BitsSet, SetBit;
    SatisfiedAll(s.g.bits, toSet, wait);
    SetBitsBit(s, toSet, i);
    OrBit(s.g.bits, toSet, i);
    AndNotBit(BitsSet(s.g, toSet).bits, wait, i);
  }

  lemma SatisfiedAll(a: Bits, b: Bits, wait: Bits)
    ensures Met(Or(a, b), Rendezvous(wait)) <==> forall j: Index :: Bit(wait, j) ==> Has(a, b, j)
  {
    MetIsSatisfied(a, b, Rendezvous(wait));
  }

  // The end of a blocked call: one that was released takes nothing more. One that timed out returns the
  // bits there are, and takes those it waited for if they have come and it is to clear them.
  lemma FinishMeans(s: System, t: Task, i: Index)
    requires Inv(s) && Enabled(s, Finish(t))
    ensures
      var r, call := Apply(s, Finish(t)), s.calls[t];
      var taken := t !in s.answers && Satisfied(s.g.bits, 0, call) && call.clear;
      && FinalBits(s.g, s.g.value[t]) == (if t in s.answers then s.answers[t] else s.g.bits)
      && (Bit(r.g.bits, i) <==> Bit(s.g.bits, i) && !(taken && Bit(call.bits, i)))
      && r.g.waiting == s.g.waiting && r.calls == s.calls - {t}
  {
    hide Inv, Bit, Met, AndNot, Satisfied, FinalBits;
    FinishIsExact(s, t);
    MetIsSatisfiedNow(s.g.bits, s.calls[t]);
    AndNotBit(s.g.bits, s.calls[t].bits, i);
  }

  // A task whose wait ends by the tick leaves the list, and nothing else happens; what it finds when it
  // runs again is FinishMeans.
  lemma TimeOutMeans(s: System, t: Task)
    requires Enabled(s, TimeOut(t)) && NoDup(s.g.waiting)
    ensures
      var r := Apply(s, TimeOut(t));
      && r == s.(g := s.g.(waiting := r.g.waiting))
      && (forall u :: u in r.g.waiting <==> u in s.g.waiting && u != t)
  {
    var l, p := s.g.waiting, Find(s.g.waiting, t);
    assert l == l[..p] + [t] + l[p + 1..];
  }
}
