// event_groups.c: tasks that wait for bits. What a task waits for, how it wants to be answered and
// what it was answered are all packed into the value of its event list item.
module EventGroups {
  import opened Rings

  type Task = nat
  type Bits = bv16                   // EventBits_t

  const CLEAR_ON_EXIT: Bits := 0x0100
  const UNBLOCKED: Bits := 0x0200
  const WAIT_FOR_ALL: Bits := 0x0400
  const CONTROL: Bits := 0xff00
  const IN_USE: Bits := 0x8000       // taskEVENT_LIST_ITEM_VALUE_IN_USE

  // ---------------------------------------------------------------- packing

  // A call of xEventGroupWaitBits or xEventGroupSync that blocks.
  datatype Call = Call(bits: Bits, clear: bool, all: bool)

  predicate Plain(bits: Bits) { bits & CONTROL == 0 }

  // prvTestWaitCondition
  predicate Met(bits: Bits, call: Call) {
    if call.all then AllSet(bits, call.bits) else AnySet(bits, call.bits)
  }

  predicate AllSet(bits: Bits, wanted: Bits) { bits & wanted == wanted }

  predicate AnySet(bits: Bits, wanted: Bits) { bits & wanted != 0 }

  // The item value of a task that blocks.
  function Packed(call: Call): Bits {
    call.bits | (if call.clear then CLEAR_ON_EXIT else 0) | (if call.all then WAIT_FOR_ALL else 0) | IN_USE
  }

  // The item value of a task that is unblocked because of the bits.
  function Answer(bits: Bits): Bits { bits | UNBLOCKED | IN_USE }

  // What the code reads out of an item value.
  function WaitedFor(v: Bits): Bits { v & !CONTROL }

  predicate Clears(v: Bits) { (v & CONTROL) & CLEAR_ON_EXIT != 0 }

  predicate Matches(v: Bits, bits: Bits) {
    if (v & CONTROL) & WAIT_FOR_ALL == 0 then WaitedFor(v) & bits != 0 else WaitedFor(v) & bits == WaitedFor(v)
  }

  lemma PackedReadsBack(call: Call, bits: Bits)
    requires Plain(call.bits)
    ensures WaitedFor(Packed(call)) == call.bits
    ensures Clears(Packed(call)) == call.clear
    ensures Matches(Packed(call), bits) == Met(bits, call)
    ensures !AnySet(Packed(call), UNBLOCKED)
  {
  }

  lemma AnswerReadsBack(bits: Bits)
    requires Plain(bits)
    ensures WaitedFor(Answer(bits)) == bits && AnySet(Answer(bits), UNBLOCKED)
  {
  }

  function Or(a: Bits, b: Bits): Bits { a | b }

  function AndNot(a: Bits, b: Bits): Bits { a & !b }

  // ---------------------------------------------------------------- setting bits

  function Released(waiting: seq<Task>, value: map<Task, Bits>, bits: Bits): seq<Task> {
    if waiting == [] then [] else
      var t := waiting[|waiting| - 1];
      Released(waiting[..|waiting| - 1], value, bits) + if t in value && Matches(value[t], bits) then [t] else []
  }

  function Remaining(waiting: seq<Task>, value: map<Task, Bits>, bits: Bits): seq<Task> {
    if waiting == [] then [] else
      var t := waiting[|waiting| - 1];
      Remaining(waiting[..|waiting| - 1], value, bits) + if t in value && Matches(value[t], bits) then [] else [t]
  }

  // All that the released tasks want cleared.
  function ClearMask(released: seq<Task>, value: map<Task, Bits>): Bits {
    if released == [] then 0 else
      Or(ClearMask(released[..|released| - 1], value), OwnMask(value, released[|released| - 1]))
  }

  function Answered(value: map<Task, Bits>, released: seq<Task>, bits: Bits): map<Task, Bits> {
    map t | t in value :: if t in released then Answer(bits) else value[t]
  }

  // The group, with the event item values of the tasks.
  datatype Group = Group(bits: Bits, waiting: seq<Task>, value: map<Task, Bits>)

  // xEventGroupSetBits
  function BitsSet(g: Group, toSet: Bits): Group {
    var bits := Or(g.bits, toSet);
    var released := Released(g.waiting, g.value, bits);
    Group(AndNot(bits, ClearMask(released, g.value)), Remaining(g.waiting, g.value, bits),
          Answered(g.value, released, bits))
  }

  lemma {:induction false} SplitExactly(waiting: seq<Task>, value: map<Task, Bits>, bits: Bits)
    ensures forall t :: t in Released(waiting, value, bits) <==> t in waiting && t in value && Matches(value[t], bits)
    ensures forall t ::
      t in Remaining(waiting, value, bits) <==> t in waiting && !(t in value && Matches(value[t], bits))
  {
    hide Matches;
    if waiting != [] {
      SplitExactly(waiting[..|waiting| - 1], value, bits);
      assert waiting == waiting[..|waiting| - 1] + [waiting[|waiting| - 1]];
    }
  }

  predicate Disjoint(a: Bits, b: Bits) { a & b == 0 }

  lemma OrMaskApart(a: Bits, b: Bits, x: Bits)
    requires Disjoint(Or(a, b), x)
    ensures Disjoint(a, x) && Disjoint(b, x)
  {
  }

  lemma OrMaskTogether(a: Bits, b: Bits, x: Bits)
    requires Disjoint(a, x) && Disjoint(b, x)
    ensures Disjoint(Or(a, b), x)
  {
  }

  lemma OrMask(a: Bits, b: Bits, x: Bits)
    ensures Disjoint(Or(a, b), x) <==> Disjoint(a, x) && Disjoint(b, x)
  {
    hide Or, Disjoint;
    if Disjoint(Or(a, b), x) { OrMaskApart(a, b, x); }
    if Disjoint(a, x) && Disjoint(b, x) { OrMaskTogether(a, b, x); }
  }

  lemma NothingIsDisjoint(x: Bits)
    ensures Disjoint(0, x)
  {
  }

  // What one task wants cleared.
  function OwnMask(value: map<Task, Bits>, t: Task): Bits {
    if t in value && Clears(value[t]) then WaitedFor(value[t]) else 0
  }

  // The mask is exactly the union of the bits waited for by those who clear on exit.
  lemma {:induction false} ClearMaskIsUnion(released: seq<Task>, value: map<Task, Bits>, x: Bits)
    ensures Disjoint(ClearMask(released, value), x) <==> forall t :: t in released ==> Disjoint(OwnMask(value, t), x)
  {
    hide OwnMask, Disjoint, Or;
    if released == [] {
      NothingIsDisjoint(x);
    } else {
      var rest, t := released[..|released| - 1], released[|released| - 1];
      ClearMaskIsUnion(rest, value, x);
      OrMask(ClearMask(rest, value), OwnMask(value, t), x);
      assert released == rest + [t];
    }
  }

  // ---------------------------------------------------------------- the calls

  // xEventGroupClearBits
  function BitsCleared(g: Group, clear: Bits): Group { g.(bits := AndNot(g.bits, clear)) }

  // vTaskPlaceOnUnorderedEventList
  function Blocks(g: Group, t: Task, call: Call): Group {
    g.(waiting := g.waiting + [t], value := g.value[t := Packed(call)])
  }

  datatype Outcome = Returns(bits: Bits) | Blocked

  // xEventGroupWaitBits, until it blocks.
  function WaitOutcome(g: Group, call: Call, block: bool): Outcome {
    if Met(g.bits, call) || !block then Returns(g.bits) else Blocked
  }

  function Waited(g: Group, t: Task, call: Call, block: bool): Group {
    if Met(g.bits, call) then (if call.clear then BitsCleared(g, call.bits) else g)
    else if block then Blocks(g, t, call) else g
  }

  // xEventGroupSync, until it blocks: a call that waits for all its bits and clears them.
  function Rendezvous(bits: Bits): Call { Call(bits, true, true) }

  function SyncOutcome(g: Group, toSet: Bits, wait: Bits, block: bool): Outcome {
    if Met(Or(g.bits, toSet), Rendezvous(wait)) then Returns(Or(g.bits, toSet))
    else if block then Blocked else Returns(BitsSet(g, toSet).bits)
  }

  function Synced(g: Group, t: Task, toSet: Bits, wait: Bits, block: bool): Group {
    var g' := BitsSet(g, toSet);
    if Met(Or(g.bits, toSet), Rendezvous(wait)) then BitsCleared(g', wait)
    else if block then Blocks(g', t, Rendezvous(wait)) else g'
  }

  // What both do once the task runs again: without the mark of a release it has timed out, and if
  // its bits have come since, it takes them all the same.
  function FinalBits(g: Group, v: Bits): Bits { if AnySet(v, UNBLOCKED) then WaitedFor(v) else WaitedFor(g.bits) }

  function Finished(g: Group, v: Bits, call: Call): Group {
    if !AnySet(v, UNBLOCKED) && Met(g.bits, call) && call.clear then BitsCleared(g, call.bits) else g
  }

  // ---------------------------------------------------------------- steps and what they keep

  // calls are the blocked calls, up to their return; answers is history: the bits with which a task
  // was released.
  datatype System = System(g: Group, calls: map<Task, Call>, answers: map<Task, Bits>)

  datatype Step =
    | SetBits(bits: Bits)
    | ClearBits(bits: Bits)
    | WaitBits(t: Task, call: Call, block: bool)
    | Sync(t: Task, bits: Bits, wait: Bits, block: bool)
    | TimeOut(t: Task)               // the tick takes a task off the list
    | Finish(t: Task)                // a task that blocked runs again

  predicate Enabled(s: System, step: Step) {
    match step
    case SetBits(bits) => Plain(bits)
    case ClearBits(bits) => Plain(bits)
    case WaitBits(t, call, _) => t !in s.calls && Plain(call.bits) && call.bits != 0
    case Sync(t, bits, wait, _) => t !in s.calls && Plain(bits) && Plain(wait) && wait != 0
    case TimeOut(t) => t in s.g.waiting
    case Finish(t) => t in s.calls && t !in s.g.waiting && t in s.g.value
  }

  // The history after bits are set.
  function SetAnswers(s: System, toSet: Bits): map<Task, Bits> {
    var bits := Or(s.g.bits, toSet);
    var released := Released(s.g.waiting, s.g.value, bits);
    map t | t in s.calls && (t in released || t in s.answers) :: if t in released then bits else s.answers[t]
  }

  function Apply(s: System, step: Step): System
    requires Enabled(s, step)
  {
    match step
    case SetBits(bits) => System(BitsSet(s.g, bits), s.calls, SetAnswers(s, bits))
    case ClearBits(bits) => s.(g := BitsCleared(s.g, bits))
    case WaitBits(t, call, block) =>
      System(Waited(s.g, t, call, block),
             if WaitOutcome(s.g, call, block).Blocked? then s.calls[t := call] else s.calls, s.answers)
    case Sync(t, bits, wait, block) =>
      System(Synced(s.g, t, bits, wait, block),
             if SyncOutcome(s.g, bits, wait, block).Blocked? then s.calls[t := Rendezvous(wait)] else s.calls,
             SetAnswers(s, bits))
    case TimeOut(t) => s.(g := s.g.(waiting := Cut(s.g.waiting, Find(s.g.waiting, t))))
    case Finish(t) =>
      System(Finished(s.g, s.g.value[t], s.calls[t]), s.calls - {t}, s.answers - {t})
  }

  // Of a call that blocked: while it waits its condition is not met; after that its item says either
  // that it was released, with bits that met the condition, or what it waited for.
  predicate CallOk(s: System, t: Task) {
    if t in s.calls then
      && t in s.g.value && Plain(s.calls[t].bits)
      && (t in s.g.waiting ==> !Met(s.g.bits, s.calls[t]) && t !in s.answers)
      && (if t in s.answers then
            s.g.value[t] == Answer(s.answers[t]) && Plain(s.answers[t]) && Met(s.answers[t], s.calls[t])
          else s.g.value[t] == Packed(s.calls[t]))
    else t !in s.g.waiting && t !in s.answers
  }

  ghost predicate Inv(s: System) {
    Plain(s.g.bits) && NoDup(s.g.waiting) && forall t :: CallOk(s, t)
  }

  lemma FewerAny(bits: Bits, clear: Bits, w: Bits)
    requires !AnySet(bits, w)
    ensures !AnySet(AndNot(bits, clear), w)
  {
  }

  lemma FewerAll(bits: Bits, clear: Bits, w: Bits)
    requires AllSet(AndNot(bits, clear), w)
    ensures AllSet(bits, w)
  {
  }

  lemma FewerBitsMeetLess(bits: Bits, clear: Bits, call: Call)
    requires !Met(bits, call)
    ensures !Met(AndNot(bits, clear), call)
  {
    hide AndNot, AllSet, AnySet;
    if !call.all {
      FewerAny(bits, clear, call.bits);
    } else if AllSet(AndNot(bits, clear), call.bits) {
      FewerAll(bits, clear, call.bits);
    }
  }

  lemma PlainStays(a: Bits, b: Bits)
    requires Plain(a) && Plain(b)
    ensures Plain(Or(a, b))
  {
  }

  lemma PlainCleared(a: Bits, b: Bits)
    requires Plain(a)
    ensures Plain(AndNot(a, b))
  {
  }

  lemma {:induction false} RemainingNoDup(waiting: seq<Task>, value: map<Task, Bits>, bits: Bits)
    requires NoDup(waiting)
    ensures NoDup(Remaining(waiting, value, bits))
  {
    hide Matches;
    if waiting != [] {
      var rest, t := waiting[..|waiting| - 1], waiting[|waiting| - 1];
      RemainingNoDup(rest, value, bits);
      SplitExactly(rest, value, bits);
      var r := Remaining(rest, value, bits);
      forall i | 0 <= i < |r| ensures r[i] != t { assert r[i] in r; }
    }
  }

  lemma SetKeepsCall(s: System, toSet: Bits, t: Task)
    requires Inv(s) && Plain(toSet)
    ensures CallOk(System(BitsSet(s.g, toSet), s.calls, SetAnswers(s, toSet)), t)
  {
    hide Matches, Met, Plain, Answer, Packed, NoDup, Or, AndNot;
    var bits := Or(s.g.bits, toSet);
    var released := Released(s.g.waiting, s.g.value, bits);
    SplitExactly(s.g.waiting, s.g.value, bits);
    assert CallOk(s, t);
    PlainStays(s.g.bits, toSet);
    if t in s.calls {
      PackedReadsBack(s.calls[t], bits);
      if !Met(bits, s.calls[t]) {
        FewerBitsMeetLess(bits, ClearMask(released, s.g.value), s.calls[t]);
      }
    }
  }

  lemma SetKeepsInv(s: System, toSet: Bits)
    requires Inv(s) && Plain(toSet)
    ensures Inv(System(BitsSet(s.g, toSet), s.calls, SetAnswers(s, toSet)))
  {
    hide Plain, CallOk, NoDup, Or, AndNot;
    var s' := System(BitsSet(s.g, toSet), s.calls, SetAnswers(s, toSet));
    var bits := Or(s.g.bits, toSet);
    PlainStays(s.g.bits, toSet);
    PlainCleared(bits, ClearMask(Released(s.g.waiting, s.g.value, bits), s.g.value));
    RemainingNoDup(s.g.waiting, s.g.value, bits);
    forall t ensures CallOk(s', t) { SetKeepsCall(s, toSet, t); }
  }

  lemma ClearKeepsInv(s: System, clear: Bits)
    requires Inv(s)
    ensures Inv(s.(g := BitsCleared(s.g, clear)))
  {
    hide Met, Plain, Answer, Packed, NoDup, AndNot;
    var s' := s.(g := BitsCleared(s.g, clear));
    PlainCleared(s.g.bits, clear);
    forall t ensures CallOk(s', t) {
      assert CallOk(s, t);
      if t in s.g.waiting { FewerBitsMeetLess(s.g.bits, clear, s.calls[t]); }
    }
  }

  lemma BlockKeepsInv(s: System, t: Task, call: Call)
    requires Inv(s) && t !in s.calls && Plain(call.bits) && !Met(s.g.bits, call)
    ensures Inv(System(Blocks(s.g, t, call), s.calls[t := call], s.answers))
  {
    hide Met, Plain, Answer, Packed;
    var s' := System(Blocks(s.g, t, call), s.calls[t := call], s.answers);
    assert CallOk(s, t);
    assert NoDup(s'.g.waiting) by {
      forall i | 0 <= i < |s.g.waiting| ensures s.g.waiting[i] != t { assert s.g.waiting[i] in s.g.waiting; }
    }
    hide NoDup;
    forall u ensures CallOk(s', u) { assert CallOk(s, u); }
  }

  lemma TimeOutKeepsInv(s: System, t: Task)
    requires Inv(s) && t in s.g.waiting
    ensures Inv(Apply(s, TimeOut(t)))
  {
    hide Met, Plain, Answer, Packed, NoDup;
    var s' := Apply(s, TimeOut(t));
    CutFacts(s.g.waiting, Find(s.g.waiting, t));
    forall u ensures CallOk(s', u) { assert CallOk(s, u); }
  }

  lemma LeaveKeepsInv(s: System, t: Task)
    requires Inv(s) && t in s.calls && t !in s.g.waiting
    ensures Inv(System(s.g, s.calls - {t}, s.answers - {t}))
  {
    hide Met, Plain, Answer, Packed, NoDup;
    forall u ensures CallOk(System(s.g, s.calls - {t}, s.answers - {t}), u) { assert CallOk(s, u); }
  }

  lemma SyncKeepsInv(s: System, t: Task, toSet: Bits, wait: Bits, block: bool)
    requires Inv(s) && Enabled(s, Sync(t, toSet, wait, block))
    ensures Inv(Apply(s, Sync(t, toSet, wait, block)))
  {
    hide Met, Inv, Plain, CallOk, NoDup, Or, AndNot, Blocks, BitsSet, SetAnswers;
    var s' := System(BitsSet(s.g, toSet), s.calls, SetAnswers(s, toSet));
    SetKeepsInv(s, toSet);
    if Met(Or(s.g.bits, toSet), Rendezvous(wait)) {
      ClearKeepsInv(s', wait);
    } else if block {
      NotMetAfterSet(s, toSet, Rendezvous(wait));
      BlockKeepsInv(s', t, Rendezvous(wait));
    }
  }

  lemma NotMetAfterSet(s: System, toSet: Bits, call: Call)
    requires !Met(Or(s.g.bits, toSet), call)
    ensures !Met(BitsSet(s.g, toSet).bits, call)
  {
    hide Met, Or, AndNot;
    var bits := Or(s.g.bits, toSet);
    FewerBitsMeetLess(bits, ClearMask(Released(s.g.waiting, s.g.value, bits), s.g.value), call);
  }

  lemma StepKeepsInv(s: System, step: Step)
    requires Inv(s) && Enabled(s, step)
    ensures Inv(Apply(s, step))
  {
    hide Met, Inv, CallOk, NoDup, Or, AndNot, Blocks, BitsSet, SetAnswers, Plain, BitsCleared;
    match step
    case SetBits(bits) => SetKeepsInv(s, bits);
    case ClearBits(bits) => ClearKeepsInv(s, bits);
    case WaitBits(t, call, block) =>
      if Met(s.g.bits, call) { ClearKeepsInv(s, call.bits); }
      else if block { BlockKeepsInv(s, t, call); }
    case Sync(t, bits, wait, block) => SyncKeepsInv(s, t, bits, wait, block);
    case TimeOut(t) => TimeOutKeepsInv(s, t);
    case Finish(t) =>
      ClearKeepsInv(s, s.calls[t].bits);
      LeaveKeepsInv(s, t);
      SameWaiting(s, s.calls[t].bits);
      LeaveKeepsInv(s.(g := BitsCleared(s.g, s.calls[t].bits)), t);
  }

  lemma SameWaiting(s: System, clear: Bits)
    ensures BitsCleared(s.g, clear).waiting == s.g.waiting
  {
  }

  // ---------------------------------------------------------------- what callers rely on

  function Initial(value: map<Task, Bits>): System { System(Group(0, [], value), map[], map[]) }

  predicate Legal(s: System, steps: seq<Step>)
    decreases |steps|
  {
    steps == [] || (Enabled(s, steps[0]) && Legal(Apply(s, steps[0]), steps[1..]))
  }

  function RunAll(s: System, steps: seq<Step>): System
    requires Legal(s, steps)
    decreases |steps|
  {
    if steps == [] then s else RunAll(Apply(s, steps[0]), steps[1..])
  }

  lemma {:induction false} RunKeepsInv(s: System, steps: seq<Step>)
    requires Inv(s) && Legal(s, steps)
    ensures Inv(RunAll(s, steps))
    decreases |steps|
  {
    hide Inv, Apply, Enabled;
    if steps != [] {
      StepKeepsInv(s, steps[0]);
      RunKeepsInv(Apply(s, steps[0]), steps[1..]);
    }
  }

  // No task is left waiting for bits that are there.
  lemma NoWaiterIsMet(value: map<Task, Bits>, steps: seq<Step>, t: Task)
    requires Legal(Initial(value), steps)
    requires t in RunAll(Initial(value), steps).g.waiting
    ensures
      var s := RunAll(Initial(value), steps);
      t in s.calls && !Met(s.g.bits, s.calls[t])
  {
    hide Legal, RunAll, Met, Plain, NoDup;
    assert Inv(Initial(value)) by { InitialInv(value); }
    RunKeepsInv(Initial(value), steps);
    assert CallOk(RunAll(Initial(value), steps), t);
  }

  lemma InitialInv(value: map<Task, Bits>)
    ensures Inv(Initial(value))
  {
  }

  // Setting bits releases exactly the tasks whose condition they meet, and each of these will
  // return the bits as they were before any were cleared.
  lemma SetReleasesExactly(s: System, toSet: Bits, t: Task)
    requires Inv(s) && Plain(toSet) && t in s.g.waiting
    ensures
      var bits := Or(s.g.bits, toSet);
      var g := BitsSet(s.g, toSet);
      && t in s.calls && t in g.value
      && (t !in g.waiting <==> Met(bits, s.calls[t]))
      && (t !in g.waiting ==> forall later: Group :: FinalBits(later, g.value[t]) == bits)
  {
    hide Matches, Met, NoDup, Or, AndNot, Answer, Packed, Plain, WaitedFor;
    var bits := Or(s.g.bits, toSet);
    SplitExactly(s.g.waiting, s.g.value, bits);
    assert CallOk(s, t);
    PackedReadsBack(s.calls[t], bits);
    PlainStays(s.g.bits, toSet);
    AnswerReadsBack(bits);
  }

  // What is cleared is exactly the union of what the released tasks wait for and want cleared.
  lemma SetClearsExactly(s: System, toSet: Bits, x: Bits)
    requires Inv(s) && Plain(toSet)
    ensures
      var bits := Or(s.g.bits, toSet);
      var mask := ClearMask(Released(s.g.waiting, s.g.value, bits), s.g.value);
      && BitsSet(s.g, toSet).bits == AndNot(bits, mask)
      && (Disjoint(mask, x) <==>
            forall t :: t in s.g.waiting && t in s.calls && Met(bits, s.calls[t]) && s.calls[t].clear ==>
              Disjoint(s.calls[t].bits, x))
  {
    hide Matches, Met, NoDup, Or, AndNot, Answer, Packed, Plain, WaitedFor, Clears, Disjoint;
    var bits := Or(s.g.bits, toSet);
    var released := Released(s.g.waiting, s.g.value, bits);
    SplitExactly(s.g.waiting, s.g.value, bits);
    ClearMaskIsUnion(released, s.g.value, x);
    NothingIsDisjoint(x);
    forall t | t in s.g.waiting
      ensures t in s.calls && t in s.g.value && (t in released <==> Met(bits, s.calls[t]))
      ensures OwnMask(s.g.value, t) == if s.calls[t].clear then s.calls[t].bits else 0
    {
      assert CallOk(s, t);
      PackedReadsBack(s.calls[t], bits);
    }
  }

  lemma WithoutIsDisjoint(a: Bits, b: Bits)
    ensures Disjoint(AndNot(a, b), b)
  {
  }

  // The last task to reach a rendezvous returns at once with all the bits, releases every task that
  // waits there with the same bits, and leaves none of them set.
  lemma LastArrivalReleasesAll(s: System, t: Task, toSet: Bits, wait: Bits, block: bool)
    requires Inv(s) && Enabled(s, Sync(t, toSet, wait, block)) && Met(Or(s.g.bits, toSet), Rendezvous(wait))
    ensures
      var s' := Apply(s, Sync(t, toSet, wait, block));
      && SyncOutcome(s.g, toSet, wait, block) == Returns(Or(s.g.bits, toSet))
      && Disjoint(s'.g.bits, wait)
      && (forall u :: u in s.g.waiting && u in s.calls && s.calls[u] == Rendezvous(wait) ==>
            u !in s'.g.waiting && u in s'.answers && s'.answers[u] == Or(s.g.bits, toSet))
  {
    hide Matches, Met, NoDup, Or, AndNot, Answer, Packed, Plain, WaitedFor, Disjoint;
    WithoutIsDisjoint(BitsSet(s.g, toSet).bits, wait);
    var bits := Or(s.g.bits, toSet);
    SplitExactly(s.g.waiting, s.g.value, bits);
    forall u | u in s.g.waiting && u in s.calls && s.calls[u] == Rendezvous(wait)
      ensures u in Released(s.g.waiting, s.g.value, bits)
    {
      assert CallOk(s, u);
      PackedReadsBack(s.calls[u], bits);
    }
  }

  lemma PlainIsWhole(bits: Bits)
    requires Plain(bits)
    ensures WaitedFor(bits) == bits
  {
  }

  // A blocked call returns, if it was released, the bits it was released with, which met its
  // condition, and clears nothing more; if it timed out, the present bits, which it takes if they
  // have come to meet the condition.
  lemma FinishIsExact(s: System, t: Task)
    requires Inv(s) && Enabled(s, Finish(t))
    ensures
      var v := s.g.value[t];
      var call := s.calls[t];
      && (t in s.answers ==>
            FinalBits(s.g, v) == s.answers[t] && Met(s.answers[t], call) && Finished(s.g, v, call) == s.g)
      && (t !in s.answers ==>
            && FinalBits(s.g, v) == s.g.bits
            && Finished(s.g, v, call) == if Met(s.g.bits, call) && call.clear then BitsCleared(s.g, call.bits) else s.g)
  {
    hide Met, NoDup, Answer, Packed, Plain, AndNot, WaitedFor;
    assert CallOk(s, t);
    PackedReadsBack(s.calls[t], s.g.bits);
    PlainIsWhole(s.g.bits);
    if t in s.answers { AnswerReadsBack(s.answers[t]); }
  }

  // ---------------------------------------------------------------- the code itself

  // One more task looked at.
  lemma NextLooked(waiting: seq<Task>, value: map<Task, Bits>, bits: Bits, j: nat)
    requires j < |waiting|
    ensures
      var t := waiting[j];
      var matches := t in value && Matches(value[t], bits);
      && Released(waiting[..j + 1], value, bits) == Released(waiting[..j], value, bits) + (if matches then [t] else [])
      && Remaining(waiting[..j + 1], value, bits)
         == Remaining(waiting[..j], value, bits) + (if matches then [] else [t])
      && ClearMask(Released(waiting[..j + 1], value, bits), value)
         == if matches then Or(ClearMask(Released(waiting[..j], value, bits), value), OwnMask(value, t))
            else ClearMask(Released(waiting[..j], value, bits), value)
  {
    hide Matches, Or, OwnMask;
    assert waiting[..j + 1][..j] == waiting[..j];
    var t := waiting[j];
    if t in value && Matches(value[t], bits) {
      var released := Released(waiting[..j], value, bits);
      assert (released + [t])[..|released|] == released;
      assert Released(waiting[..j + 1], value, bits) == released + [t];
      assert ClearMask(released + [t], value) == Or(ClearMask(released, value), OwnMask(value, t));
    } else {
      assert Released(waiting[..j + 1], value, bits) == Released(waiting[..j], value, bits);
    }
  }

  lemma OrNothing(a: Bits)
    ensures Or(a, 0) == a
  {
  }

  class EventGroup {
    var bits: Bits                   // uxEventBits
    var waiting: seq<Task>           // xTasksWaitingForBits
    var value: map<Task, Bits>       // xEventListItem of the tasks

    function Abs(): Group
      reads this
    {
      Group(bits, waiting, value)
    }

    // xTaskRemoveFromUnorderedEventList, for the task at the given position
    method RemoveFromUnorderedEventList(position: nat, itemValue: Bits)
      requires position < |waiting| && waiting[position] in value
      modifies this
      ensures waiting == Cut(old(waiting), position) && bits == old(bits)
      ensures value == old(value)[old(waiting)[position] := Or(itemValue, IN_USE)]
    {
      value := value[waiting[position] := Or(itemValue, IN_USE)];
      waiting := Cut(waiting, position);
    }

    // xEventGroupSetBits: one pass over the list, in which released tasks leave it. This is all it does
    // while the scheduler is suspended; what it returns are the bits as other tasks leave them after that.
    method SetBits(toSet: Bits)
      requires NoDup(waiting) && forall t <- waiting :: t in value
      modifies this
      ensures Abs() == BitsSet(old(Abs()), toSet)
    {
      hide Matches, Or, AndNot, Clears, WaitedFor, Looked, Answered, BitsSet;
      ghost var w, v := waiting, value;
      bits := Or(bits, toSet);
      ghost var b := bits;
      var bitsToClear: Bits := 0;
      var position := 0;
      ghost var j := 0;
      StartLooking(w, v, b);
      while position < |waiting|
        invariant bits == b && Looked(w, v, b, j, position, bitsToClear, waiting, value)
        decreases |w| - j
      {
        NextTask(w, v, b, j, position, bitsToClear, waiting, value);
        var itemValue := value[waiting[position]];
        if Matches(itemValue, bits) {
          if Clears(itemValue) {
            bitsToClear := Or(bitsToClear, WaitedFor(itemValue));
          }
          RemoveFromUnorderedEventList(position, Or(bits, UNBLOCKED));
        } else {
          position := position + 1;
        }
        j := j + 1;
      }
      bits := AndNot(bits, bitsToClear);
      AllLooked(old(Abs()), toSet, j, position, bitsToClear, waiting, value);
    }

    // xEventGroupClearBits
    method ClearBits(toClear: Bits) returns (r: Bits)
      modifies this
      ensures Abs() == BitsCleared(old(Abs()), toClear) && r == old(bits)
    {
      r := bits;
      bits := AndNot(bits, toClear);
    }

    // xEventGroupWaitBits, until it blocks
    method WaitBits(t: Task, call: Call, block: bool) returns (outcome: Outcome)
      modifies this
      ensures Abs() == Waited(old(Abs()), t, call, block) && outcome == WaitOutcome(old(Abs()), call, block)
    {
      var current := bits;
      if Met(current, call) {
        outcome := Returns(current);
        if call.clear {
          bits := AndNot(bits, call.bits);
        }
      } else if !block {
        outcome := Returns(current);
      } else {
        Place(t, call);
        outcome := Blocked;
      }
    }

    // xEventGroupSync, until it blocks
    method Sync(t: Task, toSet: Bits, wait: Bits, block: bool) returns (outcome: Outcome)
      requires NoDup(waiting) && forall u <- waiting :: u in value
      modifies this
      ensures Abs() == Synced(old(Abs()), t, toSet, wait, block)
      ensures outcome == SyncOutcome(old(Abs()), toSet, wait, block)
    {
      hide Or, AndNot, BitsSet, AllSet;
      var original := bits;
      SetBits(toSet);
      if AllSet(Or(original, toSet), wait) {
        outcome := Returns(Or(original, toSet));
        bits := AndNot(bits, wait);
      } else if block {
        Place(t, Rendezvous(wait));
        outcome := Blocked;
      } else {
        outcome := Returns(bits);
      }
    }

    // vTaskPlaceOnUnorderedEventList
    method Place(t: Task, call: Call)
      modifies this
      ensures Abs() == Blocks(old(Abs()), t, call)
    {
      var controlBits: Bits := 0;
      if call.clear { controlBits := controlBits | CLEAR_ON_EXIT; }
      if call.all { controlBits := controlBits | WAIT_FOR_ALL; }
      PackedIs(call, controlBits);
      value := value[t := (call.bits | controlBits) | IN_USE];
      waiting := waiting + [t];
    }

    // The rest of both calls, once the task runs again
    method Finish(t: Task, call: Call) returns (r: Bits)
      requires t in value
      modifies this
      ensures Abs() == Finished(old(Abs()), old(value)[t], call)
      ensures r == FinalBits(old(Abs()), old(value)[t])
    {
      hide Met, AndNot, AnySet, WaitedFor;
      r := value[t];
      if !AnySet(r, UNBLOCKED) {
        r := bits;
        if Met(r, call) && call.clear {
          bits := AndNot(bits, call.bits);
        }
      }
      r := WaitedFor(r);
    }
  }

  // The state of the pass when j tasks have been looked at.
  ghost predicate Looked(w: seq<Task>, v: map<Task, Bits>, b: Bits, j: nat,
                         position: nat, mask: Bits, waiting: seq<Task>, value: map<Task, Bits>) {
    && j <= |w| && NoDup(w) && (forall t <- w :: t in v)
    && position == |Remaining(w[..j], v, b)| && waiting == Remaining(w[..j], v, b) + w[j..]
    && mask == ClearMask(Released(w[..j], v, b), v)
    && value == Answered(v, Released(w[..j], v, b), b)
  }

  lemma StartLooking(w: seq<Task>, v: map<Task, Bits>, b: Bits)
    requires NoDup(w) && forall t <- w :: t in v
    ensures Looked(w, v, b, 0, 0, 0, w, v)
  {
    hide NoDup;
    assert Answered(v, [], b) == v;
  }

  lemma NextTask(w: seq<Task>, v: map<Task, Bits>, b: Bits, j: nat,
                 position: nat, mask: Bits, waiting: seq<Task>, value: map<Task, Bits>)
    requires Looked(w, v, b, j, position, mask, waiting, value) && position < |waiting|
    ensures j < |w| && waiting[position] == w[j] && w[j] in value && w[j] in v && value[w[j]] == v[w[j]]
    ensures
      if Matches(v[w[j]], b) then
        Looked(w, v, b, j + 1, position, if Clears(v[w[j]]) then Or(mask, WaitedFor(v[w[j]])) else mask,
               Cut(waiting, position), value[w[j] := Or(Or(b, UNBLOCKED), IN_USE)])
      else Looked(w, v, b, j + 1, position + 1, mask, waiting, value)
  {
    hide Matches, Or, Clears, WaitedFor, NoDup, Answer, OwnMask, Released, Remaining, ClearMask, Answered;
    var t := w[j];
    NextLooked(w, v, b, j);
    Untouched(w, v, b, j);
    assert w[j..] == [t] + w[j + 1..];
    MaskOf(v, t, mask);
    AnswerIs(b);
    AnsweredMore(v, Released(w[..j], v, b), t, b);
    assert Cut(waiting, position) == Remaining(w[..j], v, b) + w[j + 1..];
    assert Released(w[..j], v, b) + [] == Released(w[..j], v, b);
    assert Remaining(w[..j], v, b) + [] == Remaining(w[..j], v, b);
    assert (Remaining(w[..j], v, b) + [t]) + w[j + 1..] == waiting;
  }

  lemma AllLooked(g: Group, toSet: Bits, j: nat, position: nat, mask: Bits, waiting: seq<Task>, value: map<Task, Bits>)
    requires Looked(g.waiting, g.value, Or(g.bits, toSet), j, position, mask, waiting, value) && position >= |waiting|
    ensures Group(AndNot(Or(g.bits, toSet), mask), waiting, value) == BitsSet(g, toSet)
  {
    hide Or, AndNot, NoDup;
    assert j == |g.waiting| && g.waiting[..j] == g.waiting;
  }

  lemma MaskOf(v: map<Task, Bits>, t: Task, mask: Bits)
    requires t in v
    ensures (if Clears(v[t]) then Or(mask, WaitedFor(v[t])) else mask) == Or(mask, OwnMask(v, t))
  {
    hide Or, Clears, WaitedFor;
    OrNothing(mask);
  }

  lemma AnswerIs(bits: Bits)
    ensures Or(Or(bits, UNBLOCKED), IN_USE) == Answer(bits)
  {
  }

  lemma PackedIs(call: Call, controlBits: Bits)
    requires controlBits == (if call.clear then CLEAR_ON_EXIT else 0) | (if call.all then WAIT_FOR_ALL else 0)
    ensures (call.bits | controlBits) | IN_USE == Packed(call)
  {
  }

  // A task that has not been looked at still has its item value.
  lemma Untouched(w: seq<Task>, v: map<Task, Bits>, b: Bits, j: nat)
    requires NoDup(w) && j < |w| && w[j] in v
    ensures w[j] in Answered(v, Released(w[..j], v, b), b)
    ensures Answered(v, Released(w[..j], v, b), b)[w[j]] == v[w[j]]
  {
    hide Matches;
    SplitExactly(w[..j], v, b);
  }

  lemma AnsweredMore(v: map<Task, Bits>, released: seq<Task>, t: Task, b: Bits)
    requires t in v
    ensures Answered(v, released, b)[t := Answer(b)] == Answered(v, released + [t], b)
  {
    hide Answer;
  }
}
