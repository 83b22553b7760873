// queue.c: how tasks and interrupts share a queue. A task that finds the queue empty (or full)
// suspends the scheduler, locks the queue, looks again, parks itself on an event list, unlocks
// and resumes; interrupts may come between any two of these steps and, while the queue is
// locked, only count what they did in xTxLock and xRxLock. The steps below are the critical
// sections of that code; proved is that no interleaving of them loses a wake-up, as long as the
// lock counts, which are signed chars in this port, and the number of messages, an unsigned one, do
// not wrap.
//
// wokenReceivers and wokenSenders are history: the tasks that an event has taken off the event
// list and that have not yet looked at the queue again.
module QueueProtocol {
  import opened Rings

  type Task = nat

  const UNLOCKED: int := -1          // queueUNLOCKED
  const LOCK_MAX: int := 127         // the greatest BaseType_t
  type Lock = n: int | -LOCK_MAX - 1 <= n <= LOCK_MAX

  const MAX: nat := 255              // the greatest UBaseType_t
  type Count = n: nat | n <= MAX

  // ---------------------------------------------------------------- the queue's control block

  datatype Control = Control(
    length: Count,                   // uxLength
    sized: bool,                     // uxItemSize != 0
    messages: Count,                 // uxMessagesWaiting
    rxLock: Lock,                    // xRxLock
    txLock: Lock,                    // xTxLock
    toSend: seq<Task>,               // xTasksWaitingToSend
    toReceive: seq<Task>,            // xTasksWaitingToReceive
    wokenSenders: set<Task>,
    wokenReceivers: set<Task>)

  // A signed char counts on from its greatest value to its least, an unsigned one to zero.
  function Increment(count: Lock): Lock { if count == LOCK_MAX then -LOCK_MAX - 1 else count + 1 }

  function OneMore(count: Count): Count { if count == MAX then 0 else count + 1 }

  // xTaskRemoveFromEventList, when the list is not empty.
  function WakeReceiver(q: Control): Control {
    if q.toReceive == [] then q
    else q.(toReceive := q.toReceive[1..], wokenReceivers := q.wokenReceivers + {q.toReceive[0]})
  }

  function WakeSender(q: Control): Control {
    if q.toSend == [] then q
    else q.(toSend := q.toSend[1..], wokenSenders := q.wokenSenders + {q.toSend[0]})
  }

  // Whether a send finds room; overwriting needs none.
  predicate HasRoom(q: Control, overwrite: bool) { q.messages < q.length || overwrite }

  // prvCopyDataToQueue, as far as the count goes: overwriting replaces an item, but only where items
  // have a size.
  function Added(q: Control, overwrite: bool): Control {
    if overwrite && q.sized && q.messages > 0 then q else q.(messages := OneMore(q.messages))
  }

  // The successful branches of xQueueGenericSend and xQueueGenericReceive.
  function Sent(q: Control, overwrite: bool): Control { WakeReceiver(Added(q, overwrite)) }

  function Received(q: Control): Control
    requires q.messages > 0
  {
    WakeSender(q.(messages := q.messages - 1))
  }

  function Peeked(q: Control): Control { WakeReceiver(q) }

  // xQueueGenericSendFromISR and xQueueGiveFromISR
  function SentFromISR(q: Control, overwrite: bool): Control {
    if !HasRoom(q, overwrite) then q
    else if q.txLock == UNLOCKED then WakeReceiver(Added(q, overwrite))
    else Added(q, overwrite).(txLock := Increment(q.txLock))
  }

  // xQueueReceiveFromISR
  function ReceivedFromISR(q: Control): Control {
    if q.messages == 0 then q
    else if q.rxLock == UNLOCKED then WakeSender(q.(messages := q.messages - 1))
    else q.(messages := q.messages - 1, rxLock := Increment(q.rxLock))
  }

  // prvLockQueue
  function Locked(q: Control): Control {
    q.(rxLock := if q.rxLock == UNLOCKED then 0 else q.rxLock, txLock := if q.txLock == UNLOCKED then 0 else q.txLock)
  }

  // The two critical sections of prvUnlockQueue: wake a task for each item counted, as long as
  // there are any.
  function UnlockedTx(q: Control): Control
    decreases if q.txLock > 0 then q.txLock else 0
  {
    if q.txLock <= 0 || q.toReceive == [] then q.(txLock := UNLOCKED)
    else UnlockedTx(WakeReceiver(q).(txLock := q.txLock - 1))
  }

  function UnlockedRx(q: Control): Control
    decreases if q.rxLock > 0 then q.rxLock else 0
  {
    if q.rxLock <= 0 || q.toSend == [] then q.(rxLock := UNLOCKED)
    else UnlockedRx(WakeSender(q).(rxLock := q.rxLock - 1))
  }

  // ---------------------------------------------------------------- the code itself

  // The control block updated in place, one method for each critical section.
  class Queue {
    const length: Count
    const sized: bool
    var messages: Count
    var rxLock: Lock
    var txLock: Lock
    var toSend: seq<Task>
    var toReceive: seq<Task>
    ghost var wokenSenders: set<Task>
    ghost var wokenReceivers: set<Task>

    ghost function Abs(): Control
      reads this
    {
      Control(length, sized, messages, rxLock, txLock, toSend, toReceive, wokenSenders, wokenReceivers)
    }

    // xQueueGenericCreate and xQueueGenericReset of a new queue
    constructor (length: Count, sized: bool)
      ensures Abs() == Control(length, sized, 0, UNLOCKED, UNLOCKED, [], [], {}, {})
    {
      this.length, this.sized := length, sized;
      messages, rxLock, txLock, toSend, toReceive := 0, UNLOCKED, UNLOCKED, [], [];
      wokenSenders, wokenReceivers := {}, {};
    }

    method RemoveReceiver()
      requires toReceive != []
      modifies this
      ensures Abs() == WakeReceiver(old(Abs()))
    {
      wokenReceivers := wokenReceivers + {toReceive[0]};
      toReceive := toReceive[1..];
    }

    method RemoveSender()
      requires toSend != []
      modifies this
      ensures Abs() == WakeSender(old(Abs()))
    {
      wokenSenders := wokenSenders + {toSend[0]};
      toSend := toSend[1..];
    }

    method TrySend(overwrite: bool) returns (sent: bool)
      modifies this
      ensures sent <==> HasRoom(old(Abs()), overwrite)
      ensures Abs() == if sent then Sent(old(Abs()), overwrite) else old(Abs())
    {
      sent := false;
      if messages < length || overwrite {
        if overwrite && sized && messages > 0 {
          messages := messages - 1;
        }
        messages := OneMore(messages);
        if toReceive != [] {
          RemoveReceiver();
        }
        sent := true;
      }
    }

    method TryReceive(justPeeking: bool) returns (received: bool)
      modifies this
      ensures received <==> old(messages) > 0
      ensures Abs() ==
        if !received then old(Abs()) else if justPeeking then Peeked(old(Abs())) else Received(old(Abs()))
    {
      received := false;
      if messages > 0 {
        if !justPeeking {
          messages := messages - 1;
          if toSend != [] {
            RemoveSender();
          }
        } else {
          if toReceive != [] {
            RemoveReceiver();
          }
        }
        received := true;
      }
    }

    method SendFromISR(overwrite: bool) returns (sent: bool)
      modifies this
      ensures sent <==> HasRoom(old(Abs()), overwrite)
      ensures Abs() == SentFromISR(old(Abs()), overwrite)
    {
      sent := false;
      if messages < length || overwrite {
        if overwrite && sized && messages > 0 {
          messages := messages - 1;
        }
        messages := OneMore(messages);
        if txLock == UNLOCKED {
          if toReceive != [] {
            RemoveReceiver();
          }
        } else {
          txLock := Increment(txLock);
        }
        sent := true;
      }
    }

    method ReceiveFromISR() returns (received: bool)
      modifies this
      ensures received <==> old(messages) > 0
      ensures Abs() == ReceivedFromISR(old(Abs()))
    {
      received := false;
      if messages > 0 {
        messages := messages - 1;
        if rxLock == UNLOCKED {
          if toSend != [] {
            RemoveSender();
          }
        } else {
          rxLock := Increment(rxLock);
        }
        received := true;
      }
    }

    method Lock()
      modifies this
      ensures Abs() == Locked(old(Abs()))
    {
      if rxLock == UNLOCKED { rxLock := 0; }
      if txLock == UNLOCKED { txLock := 0; }
    }

    method UnlockTx()
      modifies this
      ensures Abs() == UnlockedTx(old(Abs()))
    {
      ghost var q := Abs();
      while txLock > 0
        invariant UnlockedTx(Abs()) == UnlockedTx(q)
      {
        if toReceive == [] {
          break;
        }
        RemoveReceiver();
        txLock := txLock - 1;
      }
      txLock := UNLOCKED;
    }

    method UnlockRx()
      modifies this
      ensures Abs() == UnlockedRx(old(Abs()))
    {
      ghost var q := Abs();
      while rxLock > 0
        invariant UnlockedRx(Abs()) == UnlockedRx(q)
      {
        if toSend == [] {
          break;
        }
        RemoveSender();
        rxLock := rxLock - 1;
      }
      rxLock := UNLOCKED;
    }
  }

  // ---------------------------------------------------------------- tasks and interrupts

  datatype Call = Send(overwrite: bool) | Receive(peek: bool)

  // How a call goes on once the queue is unlocked and the scheduler resumed.
  datatype Outcome = Parked | Retry | TimedOut

  // Where a task is in xQueueGenericSend or xQueueGenericReceive: before which critical section.
  datatype Pc =
    | Idle
    | Trying(call: Call, block: bool)
    | Suspending(call: Call)
    | Locking(call: Call)
    | Checking(call: Call)
    | Testing(call: Call)
    | Parking(call: Call)
    | UnlockingTx(call: Call, outcome: Outcome)
    | UnlockingRx(call: Call, outcome: Outcome)
    | Resuming(call: Call, outcome: Outcome)
    | Waiting(call: Call)             // yielded, its event item on the list

  datatype Owner = Nobody | Owner(task: Task)

  // owner is the task that has suspended the scheduler.
  datatype System = System(q: Control, owner: Owner, pc: map<Task, Pc>) {
    function At(t: Task): Pc { if t in pc then pc[t] else Idle }

    function Goto(q': Control, t: Task, p: Pc): System { System(q', owner, pc[t := p]) }
  }

  datatype Step =
    | Start(t: Task, call: Call, block: bool)
    | Run(t: Task, expired: bool, place: nat)   // the next critical section of the task
    | TimeOut(t: Task)                          // the tick takes a waiting task off the list
    | SendISR(overwrite: bool)
    | ReceiveISR

  predicate MayRun(s: System, t: Task) {
    s.owner == Nobody || s.owner == Owner(t)
  }

  predicate Enabled(s: System, step: Step) {
    match step
    case Start(t, call, block) => s.At(t) == Idle && MayRun(s, t) && (call == Send(true) ==> s.q.length == 1)
    case Run(t, _, place) =>
      && s.At(t) != Idle && !s.At(t).Waiting? && MayRun(s, t)
      && (s.At(t).Parking? ==> place <= (if s.At(t).call.Send? then |s.q.toSend| else |s.q.toReceive|))
    case TimeOut(t) => s.owner == Nobody && s.At(t).Waiting?
    case SendISR(overwrite) => overwrite ==> s.q.length == 1
    case ReceiveISR => true
  }

  // A woken task that was waiting is ready again, before the top of its loop.
  function Readied(s: System, q': Control): System {
    System(q', s.owner, map t | t in s.pc :: if s.pc[t].Waiting? && t !in q'.toSend && t !in q'.toReceive
                                              then Trying(s.pc[t].call, true) else s.pc[t])
  }

  // The task is looking at the queue again, so it is no longer one that was woken for it.
  function Looking(q: Control, t: Task): Control {
    q.(wokenSenders := q.wokenSenders - {t}, wokenReceivers := q.wokenReceivers - {t})
  }

  function RunTask(s: System, t: Task, expired: bool, place: nat): System
    requires s.At(t).Parking? ==> place <= (if s.At(t).call.Send? then |s.q.toSend| else |s.q.toReceive|)
  {
    match s.At(t)
    case Trying(call, block) =>
      var q := Looking(s.q, t);
      if call.Send? && HasRoom(q, call.overwrite) then Readied(s.Goto(q, t, Idle), Sent(q, call.overwrite))
      else if call.Receive? && q.messages > 0 then
        Readied(s.Goto(q, t, Idle), if call.peek then Peeked(q) else Received(q))
      else s.Goto(q, t, if block then Suspending(call) else Idle)
    case Suspending(call) => System(s.q, Owner(t), s.pc[t := Locking(call)])
    case Locking(call) => s.Goto(Locked(s.q), t, Checking(call))
    case Checking(call) => s.Goto(s.q, t, if expired then UnlockingTx(call, TimedOut) else Testing(call))
    case Testing(call) =>
      var stay := if call.Send? then s.q.messages == s.q.length else s.q.messages == 0;
      s.Goto(s.q, t, if stay then Parking(call) else UnlockingTx(call, Retry))
    case Parking(call) =>
      var q := if call.Send? then s.q.(toSend := Paste(s.q.toSend, place, t))
               else s.q.(toReceive := Paste(s.q.toReceive, place, t));
      s.Goto(q, t, UnlockingTx(call, Parked))
    case UnlockingTx(call, outcome) => Readied(s.Goto(s.q, t, UnlockingRx(call, outcome)), UnlockedTx(s.q))
    case UnlockingRx(call, outcome) => Readied(s.Goto(s.q, t, Resuming(call, outcome)), UnlockedRx(s.q))
    case Resuming(call, outcome) =>
      var p := match outcome
        case Parked => if t in s.q.toSend || t in s.q.toReceive then Waiting(call) else Trying(call, true)
        case Retry => Trying(call, true)
        case TimedOut => Idle;
      System(s.q, Nobody, s.pc[t := p])
    case _ => s
  }

  function Apply(s: System, step: Step): System
    requires Enabled(s, step)
  {
    match step
    case Start(t, call, block) => s.Goto(s.q, t, Trying(call, block))
    case Run(t, expired, place) => RunTask(s, t, expired, place)
    case TimeOut(t) =>
      Readied(s, s.q.(toSend := Without(s.q.toSend, t), toReceive := Without(s.q.toReceive, t)))
    case SendISR(overwrite) => Readied(s, SentFromISR(s.q, overwrite))
    case ReceiveISR => Readied(s, ReceivedFromISR(s.q))
  }

  // ---------------------------------------------------------------- no wake-up is lost

  function Pending(lock: int): nat { if lock > 0 then lock else 0 }

  // A receiver is parked only while everything in the queue is already spoken for: by receivers
  // that were woken and have yet to look, or by posts that are counted and still to be answered.
  predicate ReceiversServed(q: Control) {
    q.toReceive != [] ==> q.messages <= |q.wokenReceivers| + Pending(q.txLock)
  }

  predicate SendersServed(q: Control) {
    q.toSend != [] ==> q.length <= q.messages + |q.wokenSenders| + Pending(q.rxLock)
  }

  predicate Served(q: Control) { ReceiversServed(q) && SendersServed(q) }

  // No task is on a list twice, and none is both on a list and woken.
  ghost predicate Apart(q: Control) {
    && NoDup(q.toSend) && NoDup(q.toReceive)
    && (forall t <- q.toSend :: t !in q.wokenSenders)
    && (forall t <- q.toReceive :: t !in q.wokenReceivers)
  }

  ghost predicate Good(q: Control) { Apart(q) && Served(q) }

  // Only a queue of one item is overwritten.
  predicate Overwritable(q: Control, overwrite: bool) { overwrite ==> q.length == 1 }

  // The number of messages has room to grow. Only overwriting items without a size can fill it.
  predicate CountFits(q: Control, overwrite: bool) { overwrite && !q.sized ==> q.messages < MAX }

  lemma WakeReceiverIsGood(q: Control)
    requires Apart(q) && SendersServed(q)
    requires q.toReceive != [] ==> q.messages <= |q.wokenReceivers| + 1 + Pending(q.txLock)
    ensures Apart(WakeReceiver(q)) && Served(WakeReceiver(q))
  {
    if q.toReceive != [] { assert q.toReceive[0] in q.toReceive; }
  }

  lemma WakeSenderIsGood(q: Control)
    requires Apart(q) && ReceiversServed(q)
    requires q.toSend != [] ==> q.length <= q.messages + |q.wokenSenders| + 1 + Pending(q.rxLock)
    ensures Apart(WakeSender(q)) && Served(WakeSender(q))
  {
    if q.toSend != [] { assert q.toSend[0] in q.toSend; }
  }

  // A call that was woken to receive has been taken off the record, so one more message than is
  // served is left until it has received.
  lemma LookedAndReceived(q: Control, t: Task, peek: bool)
    requires Good(q) && q.messages > 0 && t !in q.wokenSenders
    ensures Good(if peek then Peeked(Looking(q, t)) else Received(Looking(q, t)))
  {
    hide NoDup;
    var l := Looking(q, t);
    assert l.wokenSenders == q.wokenSenders;
    assert |l.wokenReceivers| >= |q.wokenReceivers| - 1;
    if peek {
      WakeReceiverIsGood(l);
    } else {
      WakeSenderIsGood(l.(messages := l.messages - 1));
    }
  }

  lemma LookedAndSent(q: Control, t: Task, overwrite: bool)
    requires Good(q) && HasRoom(q, overwrite) && Overwritable(q, overwrite) && CountFits(q, overwrite)
    requires t !in q.wokenReceivers
    ensures Good(Sent(Looking(q, t), overwrite))
  {
    hide NoDup;
    var l := Looking(q, t);
    assert l.wokenReceivers == q.wokenReceivers;
    assert |l.wokenSenders| >= |q.wokenSenders| - 1;
    AddedServes(q, l, overwrite);
    WakeReceiverIsGood(Added(l, overwrite));
  }

  lemma AddedServes(q: Control, l: Control, overwrite: bool)
    requires SendersServed(q) && HasRoom(q, overwrite) && Overwritable(q, overwrite) && CountFits(q, overwrite)
    requires l == q.(wokenSenders := l.wokenSenders) && |l.wokenSenders| >= |q.wokenSenders| - 1
    ensures SendersServed(Added(l, overwrite)) && Added(l, overwrite).messages <= l.messages + 1
  {
  }

  lemma LookedInVain(q: Control, t: Task)
    requires Good(q)
    requires t in q.wokenReceivers ==> q.messages == 0
    requires t in q.wokenSenders ==> q.messages >= q.length
    ensures Good(Looking(q, t))
  {
    hide NoDup;
    var l := Looking(q, t);
    if t !in q.wokenReceivers { assert l.wokenReceivers == q.wokenReceivers; }
    if t !in q.wokenSenders { assert l.wokenSenders == q.wokenSenders; }
  }

  lemma SentFromISRIsGood(q: Control, overwrite: bool)
    requires Good(q) && Overwritable(q, overwrite) && CountFits(q, overwrite)
    requires UNLOCKED <= q.txLock < LOCK_MAX
    ensures Good(SentFromISR(q, overwrite))
  {
    hide NoDup;
    if HasRoom(q, overwrite) && q.txLock == UNLOCKED { WakeReceiverIsGood(Added(q, overwrite)); }
  }

  lemma ReceivedFromISRIsGood(q: Control)
    requires Good(q) && UNLOCKED <= q.rxLock < LOCK_MAX
    ensures Good(ReceivedFromISR(q))
  {
    hide NoDup;
    if q.messages > 0 && q.rxLock == UNLOCKED { WakeSenderIsGood(q.(messages := q.messages - 1)); }
  }

  // Unlocking trades each post counted for a task woken.
  lemma {:induction false} UnlockedTxIsGood(q: Control)
    requires Good(q)
    ensures Good(UnlockedTx(q))
    decreases Pending(q.txLock)
  {
    hide NoDup;
    if q.txLock > 0 && q.toReceive != [] {
      WakeReceiverIsGood(q.(txLock := q.txLock - 1));
      UnlockedTxIsGood(WakeReceiver(q).(txLock := q.txLock - 1));
    }
  }

  lemma {:induction false} UnlockedRxIsGood(q: Control)
    requires Good(q)
    ensures Good(UnlockedRx(q))
    decreases Pending(q.rxLock)
  {
    hide NoDup;
    if q.rxLock > 0 && q.toSend != [] {
      WakeSenderIsGood(q.(rxLock := q.rxLock - 1));
      UnlockedRxIsGood(WakeSender(q).(rxLock := q.rxLock - 1));
    }
  }

  // ---------------------------------------------------------------- where the tasks are

  predicate OnList(p: Pc) {
    p.Waiting? || ((p.UnlockingTx? || p.UnlockingRx? || p.Resuming?) && p.outcome == Parked)
  }

  predicate Called(p: Pc) { p.Trying? || (OnList(p) && !p.Waiting?) }

  // Between suspending the scheduler and resuming it.
  predicate Inside(p: Pc) { !p.Idle? && !p.Trying? && !p.Suspending? && !p.Waiting? }

  predicate Placed(s: System, t: Task) {
    var p := s.At(t);
    && (t in s.q.toReceive ==> OnList(p) && p.call.Receive?)
    && (t in s.q.toSend ==> OnList(p) && p.call.Send?)
    && (t in s.q.wokenReceivers ==> Called(p) && p.call.Receive?)
    && (t in s.q.wokenSenders ==> Called(p) && p.call.Send?)
    && (p.Waiting? ==> if p.call.Receive? then t in s.q.toReceive else t in s.q.toSend)
    && (Inside(p) ==> s.owner == Owner(t))
    && (!p.Idle? && p.call.Send? ==> Overwritable(s.q, p.call.overwrite))
  }

  // What the owner of the suspended scheduler has done to the locks. Before it parks, the queue was
  // found empty (or full), so whatever came since has been counted.
  predicate LocksFit(s: System) {
    var q := s.q;
    match s.owner
    case Nobody => q.txLock == q.rxLock == UNLOCKED
    case Owner(t) =>
      match s.At(t)
      case Locking(_) => q.txLock == q.rxLock == UNLOCKED
      case Checking(_) => q.txLock >= 0 && q.rxLock >= 0
      case Testing(_) => q.txLock >= 0 && q.rxLock >= 0
      case Parking(call) =>
        && q.txLock >= 0 && q.rxLock >= 0
        && (if call.Receive? then q.messages <= q.txLock else q.length <= q.messages + q.rxLock)
      case UnlockingTx(_, _) => q.txLock >= 0 && q.rxLock >= 0
      case UnlockingRx(_, _) => q.txLock == UNLOCKED && q.rxLock >= 0
      case Resuming(_, _) => q.txLock == q.rxLock == UNLOCKED
      case _ => false
  }

  ghost predicate AllPlaced(s: System) { forall t :: Placed(s, t) }

  ghost predicate Inv(s: System) { Good(s.q) && LocksFit(s) && AllPlaced(s) }

  // Tasks only move from the lists to the woken.
  ghost predicate Moves(q: Control, q': Control) {
    && q'.length == q.length
    && (forall t: Task :: t in q'.toReceive ==> t in q.toReceive)
    && (forall t: Task :: t in q'.toSend ==> t in q.toSend)
    && (forall t: Task :: t in q'.wokenReceivers ==> t in q.wokenReceivers || t in q.toReceive)
    && (forall t: Task :: t in q'.wokenSenders ==> t in q.wokenSenders || t in q.toSend)
  }

  lemma {:induction false} UnlockedTxMoves(q: Control)
    ensures Moves(q, UnlockedTx(q))
    ensures UnlockedTx(q).txLock == UNLOCKED && UnlockedTx(q).rxLock == q.rxLock
    decreases Pending(q.txLock)
  {
    if q.txLock > 0 && q.toReceive != [] {
      UnlockedTxMoves(WakeReceiver(q).(txLock := q.txLock - 1));
    }
  }

  lemma {:induction false} UnlockedRxMoves(q: Control)
    ensures Moves(q, UnlockedRx(q))
    ensures UnlockedRx(q).rxLock == UNLOCKED && UnlockedRx(q).txLock == q.txLock
    decreases Pending(q.rxLock)
  {
    if q.rxLock > 0 && q.toSend != [] {
      UnlockedRxMoves(WakeSender(q).(rxLock := q.rxLock - 1));
    }
  }

  lemma WakingMoves(q: Control)
    ensures Moves(q, WakeReceiver(q)) && Moves(q, WakeSender(q))
  {
  }

  lemma ReadiedPlaced(s: System, q: Control)
    requires AllPlaced(s) && Moves(s.q, q) && Apart(q)
    ensures AllPlaced(Readied(s, q))
  {
    hide NoDup;
    forall t ensures Placed(Readied(s, q), t) {
      assert Placed(s, t);
    }
  }

  lemma GonePlaced(s: System, t: Task, q: Control, p: Pc)
    requires AllPlaced(s) && s.At(t).Trying? && q == Looking(s.q, t)
    requires p.Idle? || (p.Suspending? && p.call == s.At(t).call)
    ensures AllPlaced(s.Goto(q, t, p))
  {
    forall u ensures Placed(s.Goto(q, t, p), u) {
      assert Placed(s, u) && Placed(s, t);
    }
  }

  lemma TryKeepsInv(s: System, t: Task)
    requires Inv(s) && s.owner == Nobody && s.At(t).Trying? && Calm(s, Run(t, false, 0))
    ensures Inv(RunTask(s, t, false, 0))
  {
    hide Apart, Served, NoDup;
    var p := s.At(t);
    var q := Looking(s.q, t);
    assert Placed(s, t);
    if p.call.Send? && HasRoom(q, p.call.overwrite) {
      LookedAndSent(s.q, t, p.call.overwrite);
      GonePlaced(s, t, q, Idle);
      WakingMoves(Added(q, p.call.overwrite));
      ReadiedPlaced(s.Goto(q, t, Idle), Sent(q, p.call.overwrite));
    } else if p.call.Receive? && q.messages > 0 {
      LookedAndReceived(s.q, t, p.call.peek);
      GonePlaced(s, t, q, Idle);
      WakingMoves(q);
      WakingMoves(q.(messages := q.messages - 1));
      ReadiedPlaced(s.Goto(q, t, Idle), if p.call.peek then Peeked(q) else Received(q));
    } else {
      LookedInVain(s.q, t);
      GonePlaced(s, t, q, if p.block then Suspending(p.call) else Idle);
    }
  }

  // The steps that change nothing but where their task is.
  lemma MoveKeepsInv(s: System, t: Task, expired: bool)
    requires Inv(s) && MayRun(s, t) && (s.At(t).Suspending? || s.At(t).Checking? || s.At(t).Testing?)
    ensures Inv(RunTask(s, t, expired, 0))
  {
    hide Good;
    var s' := RunTask(s, t, expired, 0);
    forall u ensures Placed(s', u) {
      assert Placed(s, u) && Placed(s, t);
    }
  }

  lemma LockKeepsInv(s: System, t: Task)
    requires Inv(s) && MayRun(s, t) && s.At(t).Locking?
    ensures Inv(RunTask(s, t, false, 0))
  {
    hide NoDup;
    assert Placed(s, t);
    var s' := RunTask(s, t, false, 0);
    forall u ensures Placed(s', u) {
      assert Placed(s, u) && Placed(s, t);
    }
  }

  lemma PastedOnce(l: seq<Task>, place: nat, t: Task)
    requires NoDup(l) && t !in l && place <= |l|
    ensures NoDup(Paste(l, place, t))
    ensures forall u: Task :: u in Paste(l, place, t) <==> u in l || u == t
  {
    PasteFacts(l, place, t);
  }

  lemma ParkIsGood(q: Control, t: Task, place: nat, call: Call)
    requires Good(q) && t !in q.toSend && t !in q.toReceive && t !in q.wokenSenders && t !in q.wokenReceivers
    requires if call.Receive? then q.messages <= q.txLock else q.length <= q.messages + q.rxLock
    requires place <= if call.Send? then |q.toSend| else |q.toReceive|
    ensures Good(if call.Send? then q.(toSend := Paste(q.toSend, place, t))
                 else q.(toReceive := Paste(q.toReceive, place, t)))
  {
    hide NoDup;
    if call.Send? { PastedOnce(q.toSend, place, t); } else { PastedOnce(q.toReceive, place, t); }
  }

  lemma ParkKeepsInv(s: System, t: Task, place: nat)
    requires Inv(s) && MayRun(s, t) && s.At(t).Parking?
    requires place <= if s.At(t).call.Send? then |s.q.toSend| else |s.q.toReceive|
    ensures Inv(RunTask(s, t, false, place))
  {
    hide Good, Apart, Served, Paste;
    var s' := RunTask(s, t, false, place);
    assert Placed(s, t);
    ParkIsGood(s.q, t, place, s.At(t).call);
    ListsApart(s.q);
    if s.At(t).call.Send? { PastedOnce(s.q.toSend, place, t); } else { PastedOnce(s.q.toReceive, place, t); }
    forall u ensures Placed(s', u) {
      assert Placed(s, u);
    }
  }

  lemma ListsApart(q: Control)
    requires Good(q)
    ensures NoDup(q.toSend) && NoDup(q.toReceive)
  {
  }

  lemma UnlockKeepsInv(s: System, t: Task)
    requires Inv(s) && MayRun(s, t) && (s.At(t).UnlockingTx? || s.At(t).UnlockingRx?)
    ensures Inv(RunTask(s, t, false, 0))
  {
    hide Apart, Served, NoDup, UnlockedTx, UnlockedRx;
    var p := s.At(t);
    var next := if p.UnlockingTx? then UnlockingRx(p.call, p.outcome) else Resuming(p.call, p.outcome);
    var m := s.Goto(s.q, t, next);
    forall u ensures Placed(m, u) {
      assert Placed(s, u) && Placed(s, t);
    }
    if p.UnlockingTx? {
      UnlockedTxIsGood(s.q);
      UnlockedTxMoves(s.q);
      ReadiedPlaced(m, UnlockedTx(s.q));
    } else {
      UnlockedRxIsGood(s.q);
      UnlockedRxMoves(s.q);
      ReadiedPlaced(m, UnlockedRx(s.q));
    }
  }

  lemma ResumeKeepsInv(s: System, t: Task)
    requires Inv(s) && MayRun(s, t) && s.At(t).Resuming?
    ensures Inv(RunTask(s, t, false, 0))
  {
    hide NoDup, Served;
    var s' := RunTask(s, t, false, 0);
    forall u ensures Placed(s', u) {
      assert Placed(s, u) && Placed(s, t);
    }
  }

  lemma TimeOutKeepsInv(s: System, t: Task)
    requires Inv(s) && Enabled(s, TimeOut(t))
    ensures Inv(Apply(s, TimeOut(t)))
  {
    hide NoDup;
    var q := s.q.(toSend := Without(s.q.toSend, t), toReceive := Without(s.q.toReceive, t));
    WithoutFacts(s.q.toSend, t);
    WithoutFacts(s.q.toReceive, t);
    ReadiedPlaced(s, q);
  }

  // The counts a post or a receive makes have room to count.
  predicate Calm(s: System, step: Step) {
    match step
    case Run(t, _, _) => s.At(t).Trying? && s.At(t).call.Send? ==> CountFits(s.q, s.At(t).call.overwrite)
    case SendISR(overwrite) => !HasRoom(s.q, overwrite) || (s.q.txLock < LOCK_MAX && CountFits(s.q, overwrite))
    case ReceiveISR => s.q.rxLock < LOCK_MAX || s.q.messages == 0
    case _ => true
  }

  lemma LocksBounded(s: System)
    requires LocksFit(s)
    ensures UNLOCKED <= s.q.txLock && UNLOCKED <= s.q.rxLock
  {
  }

  lemma OwnerPlaced(s: System)
    requires AllPlaced(s)
    ensures s.owner.Owner? ==> Placed(s, s.owner.task)
  {
  }

  lemma SendISRKeepsLocks(s: System, overwrite: bool)
    requires LocksFit(s) && AllPlaced(s) && Enabled(s, SendISR(overwrite)) && Calm(s, SendISR(overwrite))
    ensures LocksFit(Readied(s, SentFromISR(s.q, overwrite)))
  {
    OwnerPlaced(s);
  }

  lemma SendISRKeepsInv(s: System, overwrite: bool)
    requires Inv(s) && Enabled(s, SendISR(overwrite)) && Calm(s, SendISR(overwrite))
    ensures Inv(Readied(s, SentFromISR(s.q, overwrite)))
  {
    hide Apart, Served, NoDup, LocksFit, AllPlaced;
    if HasRoom(s.q, overwrite) {
      LocksBounded(s);
      SentFromISRIsGood(s.q, overwrite);
      WakingMoves(Added(s.q, overwrite));
    }
    SendISRKeepsLocks(s, overwrite);
    ReadiedPlaced(s, SentFromISR(s.q, overwrite));
  }

  lemma ReceiveISRKeepsInv(s: System)
    requires Inv(s) && Calm(s, ReceiveISR)
    ensures Inv(Readied(s, ReceivedFromISR(s.q)))
  {
    hide Apart, Served, NoDup;
    if s.q.messages > 0 {
      LocksBounded(s);
      ReceivedFromISRIsGood(s.q);
      WakingMoves(s.q.(messages := s.q.messages - 1));
    }
    OwnerPlaced(s);
    ReadiedPlaced(s, ReceivedFromISR(s.q));
  }

  lemma StartKeepsInv(s: System, step: Step)
    requires Inv(s) && Enabled(s, step) && step.Start?
    ensures Inv(Apply(s, step))
  {
    hide Good;
    var s' := Apply(s, step);
    forall u ensures Placed(s', u) {
      assert Placed(s, u) && Placed(s, step.t);
    }
  }

  // Every critical section keeps the wake-ups accounted for.
  lemma StepKeepsInv(s: System, step: Step)
    requires Inv(s) && Enabled(s, step) && Calm(s, step)
    ensures Inv(Apply(s, step))
  {
    hide Good, LocksFit, AllPlaced, RunTask, Readied, SentFromISR, ReceivedFromISR;
    match step
    case Start(_, _, _) => StartKeepsInv(s, step);
    case TimeOut(t) => TimeOutKeepsInv(s, t);
    case SendISR(overwrite) => SendISRKeepsInv(s, overwrite);
    case ReceiveISR => ReceiveISRKeepsInv(s);
    case Run(t, expired, place) => RunKeepsInv(s, t, expired, place);
  }

  lemma OwnerIsInside(s: System, t: Task)
    requires LocksFit(s) && s.owner == Owner(t)
    ensures Inside(s.At(t))
  {
  }

  lemma RunKeepsInv(s: System, t: Task, expired: bool, place: nat)
    requires Inv(s) && Enabled(s, Run(t, expired, place)) && Calm(s, Run(t, expired, place))
    ensures Inv(RunTask(s, t, expired, place))
  {
    hide Good, LocksFit, AllPlaced, Readied;
    match s.At(t)
    case Trying(_, _) =>
      if s.owner == Owner(t) { OwnerIsInside(s, t); }
      TryKeepsInv(s, t);
    case Suspending(_) => MoveKeepsInv(s, t, expired);
    case Checking(_) => MoveKeepsInv(s, t, expired);
    case Testing(_) => MoveKeepsInv(s, t, expired);
    case Locking(_) => LockKeepsInv(s, t);
    case Parking(_) => ParkKeepsInv(s, t, place);
    case UnlockingTx(_, _) => UnlockKeepsInv(s, t);
    case UnlockingRx(_, _) => UnlockKeepsInv(s, t);
    case Resuming(_, _) => ResumeKeepsInv(s, t);
  }

  // ---------------------------------------------------------------- runs

  function Initial(length: Count, sized: bool): System {
    System(Control(length, sized, 0, UNLOCKED, UNLOCKED, [], [], {}, {}), Nobody, map[])
  }

  predicate Legal(s: System, steps: seq<Step>)
    decreases |steps|
  {
    steps == [] || (Enabled(s, steps[0]) && Legal(Apply(s, steps[0]), steps[1..]))
  }

  predicate CalmRun(s: System, steps: seq<Step>)
    requires Legal(s, steps)
    decreases |steps|
  {
    steps == [] || (Calm(s, steps[0]) && CalmRun(Apply(s, steps[0]), steps[1..]))
  }

  function RunAll(s: System, steps: seq<Step>): System
    requires Legal(s, steps)
    decreases |steps|
  {
    if steps == [] then s else RunAll(Apply(s, steps[0]), steps[1..])
  }

  lemma InitialInv(length: Count, sized: bool)
    ensures Inv(Initial(length, sized))
  {
  }

  lemma {:induction false} CalmRunKeepsInv(s: System, steps: seq<Step>)
    requires Inv(s) && Legal(s, steps) && CalmRun(s, steps)
    ensures Inv(RunAll(s, steps))
    decreases |steps|
  {
    hide Inv, Apply, Enabled;
    if steps != [] {
      StepKeepsInv(s, steps[0]);
      CalmRunKeepsInv(Apply(s, steps[0]), steps[1..]);
    }
  }

  // However tasks and interrupts interleave, no wake-up is lost: a task waits to receive only
  // while every message is accounted for by a woken receiver or by a counted post, and waits to
  // send only while every free place is.
  lemma NoWakeUpLost(length: Count, sized: bool, steps: seq<Step>)
    requires Legal(Initial(length, sized), steps) && CalmRun(Initial(length, sized), steps)
    ensures Served(RunAll(Initial(length, sized), steps).q)
  {
    hide Apply, Enabled, Apart, LocksFit, AllPlaced, RunAll, Legal, CalmRun;
    InitialInv(length, sized);
    CalmRunKeepsInv(Initial(length, sized), steps);
  }

  // An item is added beyond the length exactly if one without a size overwrites a full queue.
  lemma AddedFits(q: Control, overwrite: bool)
    requires q.messages <= q.length && HasRoom(q, overwrite) && Overwritable(q, overwrite)
    ensures Added(q, overwrite).messages <= q.length <==> !Overfills(q, overwrite)
  {
  }

  predicate Overfills(q: Control, overwrite: bool) { overwrite && !q.sized && q.messages == q.length }

  predicate StepOverfills(s: System, step: Step) {
    || (step.SendISR? && Overfills(s.q, step.overwrite))
    || (step.Run? && s.At(step.t).Trying? && s.At(step.t).call.Send? && Overfills(s.q, s.At(step.t).call.overwrite))
  }

  predicate NeverOverfills(s: System, steps: seq<Step>)
    requires Legal(s, steps)
    decreases |steps|
  {
    steps == [] || (!StepOverfills(s, steps[0]) && NeverOverfills(Apply(s, steps[0]), steps[1..]))
  }

  lemma {:induction false} UnlockingKeepsMessages(q: Control)
    ensures UnlockedTx(q).messages == UnlockedRx(q).messages == q.messages
    decreases Pending(q.txLock) + Pending(q.rxLock)
  {
    if q.txLock > 0 && q.toReceive != [] { UnlockingKeepsMessages(WakeReceiver(q).(txLock := q.txLock - 1)); }
    if q.rxLock > 0 && q.toSend != [] { UnlockingKeepsMessages(WakeSender(q).(rxLock := q.rxLock - 1)); }
  }

  // The queue holds no more than its length, whatever the lock counts do.
  lemma {:induction false} MessagesFit(s: System, steps: seq<Step>)
    requires Legal(s, steps) && NeverOverfills(s, steps) && s.q.messages <= s.q.length && s.q.length > 0
    ensures RunAll(s, steps).q.messages <= RunAll(s, steps).q.length == s.q.length
    decreases |steps|
  {
    if steps != [] {
      StepFits(s, steps[0]);
      MessagesFit(Apply(s, steps[0]), steps[1..]);
    }
  }

  lemma StepFits(s: System, step: Step)
    requires Enabled(s, step) && !StepOverfills(s, step) && s.q.messages <= s.q.length && s.q.length > 0
    ensures Apply(s, step).q.messages <= Apply(s, step).q.length == s.q.length
  {
    hide UnlockedTx, UnlockedRx, Apart, Served;
    UnlockingKeepsMessages(s.q);
    StepKeepsLength(s, step);
  }

  // ---------------------------------------------------------------- what a step does to the count

  // A task, or an interrupt, tries to send; `over` says whether by overwriting.
  predicate Sends(s: System, step: Step, over: bool) {
    || step == SendISR(over)
    || (step.Run? && s.At(step.t).Trying? && s.At(step.t).call == Send(over))
  }

  // It tries to take an item.
  predicate Receives(s: System, step: Step) {
    || step.ReceiveISR?
    || (step.Run? && s.At(step.t).Trying? && s.At(step.t).call == Receive(false))
  }

  // An item comes in: one is sent that finds room, or that overwrites where nothing is replaced.
  predicate ComesIn(s: System, step: Step) {
    || (Sends(s, step, false) && s.q.messages < s.q.length)
    || (Sends(s, step, true) && (!s.q.sized || s.q.messages == 0))
  }

  predicate GoesOut(s: System, step: Step) { Receives(s, step) && s.q.messages > 0 }

  // The number of messages is that of the items that came in less those that went out, however tasks and
  // interrupts send and receive, and whether the queue is locked or not. Peeking, failing calls and
  // replacing an item leave it.
  lemma StepCounts(s: System, step: Step)
    requires Enabled(s, step) && !(ComesIn(s, step) && s.q.messages == MAX)
    ensures Apply(s, step).q.messages
         == s.q.messages + (if ComesIn(s, step) then 1 else 0) - (if GoesOut(s, step) then 1 else 0)
  {
    hide UnlockedTx, UnlockedRx;
    UnlockingKeepsMessages(s.q);
  }

  predicate NeverFull(s: System, steps: seq<Step>)
    requires Legal(s, steps)
    decreases |steps|
  {
    steps == [] ||
    (!(ComesIn(s, steps[0]) && s.q.messages == MAX) && NeverFull(Apply(s, steps[0]), steps[1..]))
  }

  function CameIn(s: System, steps: seq<Step>): nat
    requires Legal(s, steps)
    decreases |steps|
  {
    if steps == [] then 0
    else (if ComesIn(s, steps[0]) then 1 else 0) + CameIn(Apply(s, steps[0]), steps[1..])
  }

  function WentOut(s: System, steps: seq<Step>): nat
    requires Legal(s, steps)
    decreases |steps|
  {
    if steps == [] then 0
    else (if GoesOut(s, steps[0]) then 1 else 0) + WentOut(Apply(s, steps[0]), steps[1..])
  }

  lemma {:induction false} MessagesConserved(s: System, steps: seq<Step>)
    requires Legal(s, steps) && NeverFull(s, steps)
    ensures RunAll(s, steps).q.messages == s.q.messages + CameIn(s, steps) - WentOut(s, steps)
    decreases |steps|
  {
    hide Apply, Enabled, ComesIn, GoesOut;
    if steps != [] {
      StepCounts(s, steps[0]);
      MessagesConserved(Apply(s, steps[0]), steps[1..]);
    }
  }

  // ---------------------------------------------------------------- whom a step wakes

  // The tasks woken are the first ones of their list, and nothing else happens to the lists.
  ghost predicate FromFront(was: seq<Task>, now: seq<Task>, woken: set<Task>, wokenNow: set<Task>) {
    exists k :: FirstWoken(was, now, woken, wokenNow, k)
  }

  predicate FirstWoken(was: seq<Task>, now: seq<Task>, woken: set<Task>, wokenNow: set<Task>, k: int) {
    0 <= k <= |was| && now == was[k..] && wokenNow == woken + Members(was[..k])
  }

  function Members(q: seq<Task>): set<Task> { set t | t in q }

  lemma MembersAdd(a: seq<Task>, b: seq<Task>)
    ensures Members(a + b) == Members(a) + Members(b)
  {
  }

  lemma FirstMember(q: seq<Task>)
    ensures Members(q[..0]) == {}
    ensures q != [] ==> Members(q[..1]) == {q[0]}
  {
  }

  lemma WakeIsFromFront(q: Control)
    ensures FromFront(q.toReceive, WakeReceiver(q).toReceive, q.wokenReceivers, WakeReceiver(q).wokenReceivers)
    ensures FromFront(q.toSend, WakeSender(q).toSend, q.wokenSenders, WakeSender(q).wokenSenders)
    ensures FromFront(q.toReceive, q.toReceive, q.wokenReceivers, q.wokenReceivers)
    ensures FromFront(q.toSend, q.toSend, q.wokenSenders, q.wokenSenders)
    ensures WakeReceiver(q).toSend == q.toSend && WakeReceiver(q).wokenSenders == q.wokenSenders
    ensures WakeSender(q).toReceive == q.toReceive && WakeSender(q).wokenReceivers == q.wokenReceivers
  {
    OneWoken(q.toReceive, q.wokenReceivers);
    OneWoken(q.toSend, q.wokenSenders);
    hide FirstWoken;
  }

  lemma OneWoken(was: seq<Task>, woken: set<Task>)
    ensures FirstWoken(was, was, woken, woken, 0)
    ensures was != [] ==> FirstWoken(was, was[1..], woken, woken + {was[0]}, 1)
  {
    FirstMember(was);
    hide Members;
  }

  lemma FrontTwice(a: seq<Task>, b: seq<Task>, c: seq<Task>, u: set<Task>, v: set<Task>, w: set<Task>)
    requires FromFront(a, b, u, v) && FromFront(b, c, v, w)
    ensures FromFront(a, c, u, w)
  {
    var i :| FirstWoken(a, b, u, v, i);
    var j :| FirstWoken(b, c, v, w, j);
    hide FirstWoken;
    FirstWokenTwice(a, b, c, u, v, w, i, j);
  }

  lemma FirstWokenTwice(a: seq<Task>, b: seq<Task>, c: seq<Task>, u: set<Task>, v: set<Task>, w: set<Task>,
                        i: int, j: int)
    requires FirstWoken(a, b, u, v, i) && FirstWoken(b, c, v, w, j)
    ensures FirstWoken(a, c, u, w, i + j)
  {
    hide Members;
    SlicesAdd(a, i, j);
    MembersAdd(a[..i], a[i..][..j]);
  }

  lemma SlicesAdd(a: seq<Task>, i: nat, j: nat)
    requires i + j <= |a|
    ensures a[i..][j..] == a[i + j..] && a[..i] + a[i..][..j] == a[..i + j]
  {
  }

  lemma {:induction false} UnlockTxIsFromFront(q: Control)
    ensures FromFront(q.toReceive, UnlockedTx(q).toReceive, q.wokenReceivers, UnlockedTx(q).wokenReceivers)
    ensures UnlockedTx(q).toSend == q.toSend && UnlockedTx(q).wokenSenders == q.wokenSenders
    decreases Pending(q.txLock)
  {
    hide FromFront;
    WakeIsFromFront(q);
    if q.txLock > 0 && q.toReceive != [] {
      var w := WakeReceiver(q).(txLock := q.txLock - 1);
      UnlockTxIsFromFront(w);
      FrontTwice(q.toReceive, w.toReceive, UnlockedTx(q).toReceive,
                 q.wokenReceivers, w.wokenReceivers, UnlockedTx(q).wokenReceivers);
    }
  }

  lemma {:induction false} UnlockRxIsFromFront(q: Control)
    ensures FromFront(q.toSend, UnlockedRx(q).toSend, q.wokenSenders, UnlockedRx(q).wokenSenders)
    ensures UnlockedRx(q).toReceive == q.toReceive && UnlockedRx(q).wokenReceivers == q.wokenReceivers
    decreases Pending(q.rxLock)
  {
    hide FromFront;
    WakeIsFromFront(q);
    if q.rxLock > 0 && q.toSend != [] {
      var w := WakeSender(q).(rxLock := q.rxLock - 1);
      UnlockRxIsFromFront(w);
      FrontTwice(q.toSend, w.toSend, UnlockedRx(q).toSend, q.wokenSenders, w.wokenSenders, UnlockedRx(q).wokenSenders);
    }
  }

  // Every wake-up goes to the tasks at the front of a list, in which vListInsert keeps the most urgent
  // first; a task that looks at the queue is no longer one that was woken.
  lemma WokenFromFront(s: System, step: Step)
    requires Enabled(s, step) && !step.TimeOut? && !(step.Run? && s.At(step.t).Parking?)
    ensures
      var q, r := s.q, Apply(s, step).q;
      var looking := if step.Run? && s.At(step.t).Trying? then {step.t} else {};
      && FromFront(q.toReceive, r.toReceive, q.wokenReceivers - looking, r.wokenReceivers)
      && FromFront(q.toSend, r.toSend, q.wokenSenders - looking, r.wokenSenders)
  {
    hide FromFront, UnlockedTx, UnlockedRx;
    WakeIsFromFront(s.q);
    UnlockTxIsFromFront(s.q);
    UnlockRxIsFromFront(s.q);
    assert s.q.wokenReceivers - {} == s.q.wokenReceivers && s.q.wokenSenders - {} == s.q.wokenSenders;
    match step
    case SendISR(overwrite) => WakeIsFromFront(Added(s.q, overwrite));
    case ReceiveISR => if s.q.messages > 0 { WakeIsFromFront(s.q.(messages := s.q.messages - 1)); }
    case Run(t, _, _) => if s.At(t).Trying? { TriedFromFront(s, t); }
    case _ =>
  }

  lemma TriedFromFront(s: System, t: Task)
    requires s.At(t).Trying?
    ensures
      var q, r := s.q, RunTask(s, t, false, 0).q;
      && FromFront(q.toReceive, r.toReceive, q.wokenReceivers - {t}, r.wokenReceivers)
      && FromFront(q.toSend, r.toSend, q.wokenSenders - {t}, r.wokenSenders)
  {
    hide FromFront, WakeReceiver, WakeSender;
    var l, call := Looking(s.q, t), s.At(t).call;
    WakeIsFromFront(l);
    if call.Send? { WakeIsFromFront(Added(l, call.overwrite)); }
    if l.messages > 0 { WakeIsFromFront(l.(messages := l.messages - 1)); }
  }

  lemma {:induction false} LengthStays(s: System, steps: seq<Step>)
    requires Legal(s, steps)
    ensures RunAll(s, steps).q.length == s.q.length
    decreases |steps|
  {
    if steps != [] {
      StepKeepsLength(s, steps[0]);
      LengthStays(Apply(s, steps[0]), steps[1..]);
    }
  }

  lemma StepKeepsLength(s: System, step: Step)
    requires Enabled(s, step)
    ensures Apply(s, step).q.length == s.q.length
  {
    hide UnlockedTx, UnlockedRx;
    UnlockedTxMoves(s.q);
    UnlockedRxMoves(s.q);
  }

  // Outside a locked section a task that waits for a message there is has a woken receiver ahead
  // of it, ready to run; so once no woken task is left, waiting receivers mean an empty queue and
  // waiting senders a full one.
  lemma WaitersAreSpokenFor(length: Count, sized: bool, steps: seq<Step>, t: Task)
    requires Legal(Initial(length, sized), steps) && CalmRun(Initial(length, sized), steps)
    ensures
      var s := RunAll(Initial(length, sized), steps);
      && (s.owner == Nobody && s.At(t).Waiting? && s.At(t).call.Receive? && s.q.messages > 0 ==>
            exists u :: u in s.q.wokenReceivers && s.At(u).Trying? && s.At(u).call.Receive?)
      && (s.owner == Nobody && s.At(t).Waiting? && s.At(t).call.Send? && s.q.messages < length ==>
            exists u :: u in s.q.wokenSenders && s.At(u).Trying? && s.At(u).call.Send?)
  {
    hide Apply, Enabled, Apart, RunAll, Legal, CalmRun;
    InitialInv(length, sized);
    CalmRunKeepsInv(Initial(length, sized), steps);
    LengthStays(Initial(length, sized), steps);
    var s := RunAll(Initial(length, sized), steps);
    assert Placed(s, t);
    if s.owner == Nobody && s.At(t).Waiting? {
      if s.At(t).call.Receive? && s.q.messages > 0 {
        var u :| u in s.q.wokenReceivers;
        assert Placed(s, u);
      }
      if s.At(t).call.Send? && s.q.messages < length {
        var u :| u in s.q.wokenSenders;
        assert Placed(s, u);
      }
    }
  }

  // ---------------------------------------------------------------- when the lock count wraps

  // The lock count after n posts (or receives) from interrupts while the queue stays locked. The 255th
  // makes it read as unlocked, and from then on it stays there.
  function CountAfter(n: nat): Lock {
    if n <= LOCK_MAX then n else if n <= MAX then n - MAX - 1 else UNLOCKED
  }

  function Min(a: nat, b: nat): nat { if a < b then a else b }

  // Of l tasks on the list those left after n of them: the later posts wake a task each.
  function LeftAfter(l: nat, n: nat): nat { if n <= MAX then l else l - Min(l, n - MAX) }

  // The two directions: posts are counted in xTxLock and answered by waking receivers, items taken are
  // counted in xRxLock and answered by waking senders.
  function LockOf(q: Control, posts: bool): Lock { if posts then q.txLock else q.rxLock }

  function WaitingIn(q: Control, posts: bool): seq<Task> { if posts then q.toReceive else q.toSend }

  function Unlocked(q: Control, posts: bool): Control { if posts then UnlockedTx(q) else UnlockedRx(q) }

  // What happens between locking and unlocking: interrupts, and the steps of the task that locked the
  // queue, by which it may park itself.
  predicate InSection(s: System, step: Step) {
    || step.SendISR? || step.ReceiveISR?
    || (step.Run? && (s.At(step.t).Checking? || s.At(step.t).Testing? || s.At(step.t).Parking?))
  }

  predicate Section(s: System, steps: seq<Step>)
    requires Legal(s, steps)
    decreases |steps|
  {
    steps == [] || (InSection(s, steps[0]) && Section(Apply(s, steps[0]), steps[1..]))
  }

  // The step posts an item, or takes one.
  predicate Counts(s: System, step: Step, posts: bool) {
    if posts then step.SendISR? && HasRoom(s.q, step.overwrite) else step.ReceiveISR? && s.q.messages > 0
  }

  // The step puts a task on the list of those that wait for that.
  predicate Parks(s: System, step: Step, posts: bool) {
    step.Run? && s.At(step.t).Parking? && s.At(step.t).call.Receive? == posts
  }

  function Counted(s: System, steps: seq<Step>, posts: bool): nat
    requires Legal(s, steps)
    decreases |steps|
  {
    if steps == [] then 0
    else (if Counts(s, steps[0], posts) then 1 else 0) + Counted(Apply(s, steps[0]), steps[1..], posts)
  }

  function Parkings(s: System, steps: seq<Step>, posts: bool): nat
    requires Legal(s, steps)
    decreases |steps|
  {
    if steps == [] then 0
    else (if Parks(s, steps[0], posts) then 1 else 0) + Parkings(Apply(s, steps[0]), steps[1..], posts)
  }

  // How many posts past the 255th it takes until nobody waits, if l tasks wait at first and k posts have
  // been made: one for each task, and those that come before a task parks and find no other waiting.
  function Needed(s: System, steps: seq<Step>, posts: bool, l: nat, k: nat): nat
    requires Legal(s, steps)
    decreases |steps|
  {
    if steps == [] then l
    else
      Needed(Apply(s, steps[0]), steps[1..], posts,
             if !Parks(s, steps[0], posts) then l else if l + MAX < k then k - MAX + 1 else l + 1,
             if Counts(s, steps[0], posts) then k + 1 else k)
  }

  // It is one for each that has waited, unless some posts found nobody waiting after the 255th.
  lemma {:induction false} NeededIsAll(s: System, steps: seq<Step>, posts: bool, l: nat, k: nat)
    requires Legal(s, steps)
    ensures Needed(s, steps, posts, l, k) >= l + Parkings(s, steps, posts)
    ensures k + Counted(s, steps, posts) <= MAX + l ==>
      Needed(s, steps, posts, l, k) == l + Parkings(s, steps, posts)
    decreases |steps|
  {
    hide Apply, Enabled, Counts, Parks;
    if steps != [] {
      NeededIsAll(Apply(s, steps[0]), steps[1..], posts,
                  if !Parks(s, steps[0], posts) then l else if l + MAX < k then k - MAX + 1 else l + 1,
                  if Counts(s, steps[0], posts) then k + 1 else k);
    }
  }

  lemma SectionStep(s: System, step: Step, posts: bool, l: nat, k: nat)
    requires Enabled(s, step) && InSection(s, step)
    requires LockOf(s.q, posts) == CountAfter(k) && |WaitingIn(s.q, posts)| == LeftAfter(l, k)
    ensures
      var q := Apply(s, step).q;
      var k' := if Counts(s, step, posts) then k + 1 else k;
      var l' := if !Parks(s, step, posts) then l else if l + MAX < k then k - MAX + 1 else l + 1;
      LockOf(q, posts) == CountAfter(k') && |WaitingIn(q, posts)| == LeftAfter(l', k')
  {
    hide UnlockedTx, UnlockedRx;
    if step.Run? && s.At(step.t).Parking? {
      PasteLength(WaitingIn(s.q, s.At(step.t).call.Receive?), step.place, step.t);
      hide Paste;
    }
  }

  lemma PasteLength(l: seq<Task>, place: nat, t: Task)
    requires place <= |l|
    ensures |Paste(l, place, t)| == |l| + 1
  {
  }

  lemma {:induction false} SectionCounts(s: System, steps: seq<Step>, posts: bool, l: nat, k: nat)
    requires Legal(s, steps) && Section(s, steps)
    requires LockOf(s.q, posts) == CountAfter(k) && |WaitingIn(s.q, posts)| == LeftAfter(l, k)
    ensures
      var q, n := RunAll(s, steps).q, k + Counted(s, steps, posts);
      && LockOf(q, posts) == CountAfter(n)
      && |WaitingIn(q, posts)| == LeftAfter(Needed(s, steps, posts, l, k), n)
    decreases |steps|
  {
    hide Apply, Enabled, InSection, Counts, Parks, CountAfter, LeftAfter, LockOf, WaitingIn;
    if steps != [] {
      SectionStep(s, steps[0], posts, l, k);
      SectionCounts(Apply(s, steps[0]), steps[1..], posts,
                    if !Parks(s, steps[0], posts) then l else if l + MAX < k then k - MAX + 1 else l + 1,
                    if Counts(s, steps[0], posts) then k + 1 else k);
    }
  }

  lemma {:induction false} UnlockedTxWakes(q: Control)
    ensures |UnlockedTx(q).toReceive| == |q.toReceive| - Min(Pending(q.txLock), |q.toReceive|)
    decreases Pending(q.txLock)
  {
    if q.txLock > 0 && q.toReceive != [] { UnlockedTxWakes(WakeReceiver(q).(txLock := q.txLock - 1)); }
  }

  lemma {:induction false} UnlockedRxWakes(q: Control)
    ensures |UnlockedRx(q).toSend| == |q.toSend| - Min(Pending(q.rxLock), |q.toSend|)
    decreases Pending(q.rxLock)
  {
    if q.rxLock > 0 && q.toSend != [] { UnlockedRxWakes(WakeSender(q).(rxLock := q.rxLock - 1)); }
  }

  // Of all the tasks that have waited, those that have been woken by the end of the section.
  function Answered(s: System, steps: seq<Step>, posts: bool): int
    requires Legal(s, steps)
  {
    |WaitingIn(s.q, posts)| + Parkings(s, steps, posts) - |WaitingIn(Unlocked(RunAll(s, steps).q, posts), posts)|
  }

  lemma UnlockAnswers(s: System, steps: seq<Step>, posts: bool)
    requires Legal(s, steps) && Section(s, steps) && LockOf(s.q, posts) == 0
    requires |WaitingIn(s.q, posts)| + Parkings(s, steps, posts) > 0
    ensures
      var n := Counted(s, steps, posts);
      var waited := |WaitingIn(s.q, posts)| + Parkings(s, steps, posts);
      && LockOf(RunAll(s, steps).q, posts) == CountAfter(n)
      && (Answered(s, steps, posts) == Min(n, waited)
          <==> n <= LOCK_MAX || MAX + Needed(s, steps, posts, |WaitingIn(s.q, posts)|, 0) <= n)
  {
    hide UnlockedTx, UnlockedRx, RunAll, Legal, Section, Counted, Parkings, Needed;
    var l := |WaitingIn(s.q, posts)|;
    SectionCounts(s, steps, posts, l, 0);
    NeededIsAll(s, steps, posts, l, 0);
    UnlockedTxWakes(RunAll(s, steps).q);
    UnlockedRxWakes(RunAll(s, steps).q);
  }

  // Whatever interrupts and the task that locked the queue do until it is unlocked, as many of the
  // receivers that waited are then woken as there were posts, or all of them, exactly if the count did
  // not pass 127, or the posts went on past 255 until they had woken every receiver themselves.
  lemma UnlockAnswersPosts(s: System, steps: seq<Step>)
    requires Legal(s, steps) && Section(s, steps) && s.q.txLock == 0
    requires |s.q.toReceive| + Parkings(s, steps, true) > 0
    ensures
      var q, n := RunAll(s, steps).q, Counted(s, steps, true);
      var waited := |s.q.toReceive| + Parkings(s, steps, true);
      && q.txLock == CountAfter(n)
      && (waited - |UnlockedTx(q).toReceive| == Min(n, waited)
          <==> n <= LOCK_MAX || MAX + Needed(s, steps, true, |s.q.toReceive|, 0) <= n)
  {
    hide UnlockedTx, UnlockedRx, RunAll, Legal, Section, Counted, Parkings, Needed;
    UnlockAnswers(s, steps, true);
  }

  // The mirror image, for senders and the items taken.
  lemma UnlockAnswersTakes(s: System, steps: seq<Step>)
    requires Legal(s, steps) && Section(s, steps) && s.q.rxLock == 0
    requires |s.q.toSend| + Parkings(s, steps, false) > 0
    ensures
      var q, n := RunAll(s, steps).q, Counted(s, steps, false);
      var waited := |s.q.toSend| + Parkings(s, steps, false);
      && q.rxLock == CountAfter(n)
      && (waited - |UnlockedRx(q).toSend| == Min(n, waited)
          <==> n <= LOCK_MAX || MAX + Needed(s, steps, false, |s.q.toSend|, 0) <= n)
  {
    hide UnlockedTx, UnlockedRx, RunAll, Legal, Section, Counted, Parkings, Needed;
    UnlockAnswers(s, steps, false);
  }

  // While a queue is locked, a section is all that can happen: every step but those in which the owner
  // unlocks the queue is one of it.
  lemma LockedAllowsOnlySections(s: System, step: Step, t: Task)
    requires Inv(s) && s.owner == Owner(t) && Enabled(s, step)
    requires s.At(t).Checking? || s.At(t).Testing? || s.At(t).Parking? || s.At(t).UnlockingTx?
    ensures InSection(s, step) <==> !(step.Run? && s.At(t).UnlockingTx?)
  {
  }

  // ---------------------------------------------------------------- exactly when a wake-up is lost

  // Overwriting an item without a size takes the number of messages from 255 to none, and a sender waits
  // that no woken one and no counted receive stands for.
  predicate WrapLoses(q: Control, overwrite: bool) {
    !CountFits(q, overwrite) && q.toSend != [] && |q.wokenSenders| + Pending(q.rxLock) == 0
  }

  // A post or a receive takes a lock count from 127 to -128, and a task waits that only it stood for.
  predicate PostLoses(q: Control, overwrite: bool) {
    q.txLock == LOCK_MAX && q.toReceive != [] && Added(q, overwrite).messages > |q.wokenReceivers|
  }

  predicate TakeLoses(q: Control) {
    q.rxLock == LOCK_MAX && q.toSend != [] && q.length > q.messages - 1 + |q.wokenSenders|
  }

  predicate Loses(s: System, step: Step) {
    match step
    case SendISR(overwrite) =>
      HasRoom(s.q, overwrite) && (WrapLoses(s.q, overwrite) || PostLoses(s.q, overwrite))
    case ReceiveISR => s.q.messages > 0 && TakeLoses(s.q)
    case Run(t, _, _) =>
      s.At(t).Trying? && s.At(t).call.Send? && HasRoom(s.q, s.At(t).call.overwrite)
      && WrapLoses(Looking(s.q, t), s.At(t).call.overwrite)
    case _ => false
  }

  lemma TriedLoses(s: System, t: Task)
    requires Inv(s) && s.At(t).Trying? && s.At(t).call.Send? && HasRoom(s.q, s.At(t).call.overwrite)
    requires !CountFits(s.q, s.At(t).call.overwrite)
    ensures Served(RunTask(s, t, false, 0).q) <==> !WrapLoses(Looking(s.q, t), s.At(t).call.overwrite)
  {
    hide NoDup;
    assert Placed(s, t);
  }

  lemma PostedLoses(q: Control, overwrite: bool)
    requires Good(q) && HasRoom(q, overwrite) && Overwritable(q, overwrite) && UNLOCKED <= q.txLock
    requires q.txLock == LOCK_MAX || !CountFits(q, overwrite)
    ensures Served(SentFromISR(q, overwrite)) <==> !WrapLoses(q, overwrite) && !PostLoses(q, overwrite)
  {
    hide NoDup;
    if q.toReceive != [] { assert q.toReceive[0] !in q.wokenReceivers; }
  }

  lemma TakenLoses(q: Control)
    requires Good(q) && q.messages > 0 && q.rxLock == LOCK_MAX
    ensures Served(ReceivedFromISR(q)) <==> !TakeLoses(q)
  {
    hide NoDup;
  }

  // A step loses a wake-up exactly if it wraps one of the three counts while a task waits that nothing
  // else stands for.
  lemma StepLoses(s: System, step: Step)
    requires Inv(s) && Enabled(s, step)
    ensures Served(Apply(s, step).q) <==> !Loses(s, step)
  {
    hide Good, LocksFit, AllPlaced, RunTask, Readied, SentFromISR, ReceivedFromISR, Served;
    if Calm(s, step) {
      StepKeepsInv(s, step);
      InvServes(Apply(s, step));
      CalmDoesNotLose(s, step);
    } else {
      LocksBounded(s);
      match step
      case SendISR(overwrite) => PostedLoses(s.q, overwrite); SameQueue(s, SentFromISR(s.q, overwrite));
      case ReceiveISR => TakenLoses(s.q); SameQueue(s, ReceivedFromISR(s.q));
      case Run(t, expired, place) => NotCalmRun(s, t, expired, place);
      case _ =>
    }
  }

  lemma SameQueue(s: System, q: Control)
    ensures Readied(s, q).q == q
  {
  }

  lemma InvServes(s: System)
    requires Inv(s)
    ensures Served(s.q)
  {
  }

  lemma CalmDoesNotLose(s: System, step: Step)
    requires Calm(s, step)
    ensures !Loses(s, step)
  {
  }

  lemma NotCalmRun(s: System, t: Task, expired: bool, place: nat)
    requires Inv(s) && Enabled(s, Run(t, expired, place)) && !Calm(s, Run(t, expired, place))
    ensures Served(RunTask(s, t, expired, place).q) <==> !Loses(s, Run(t, expired, place))
  {
    TriedLoses(s, t);
    assert RunTask(s, t, expired, place) == RunTask(s, t, false, 0);
  }

  // A sender waits while interrupts overwrite an item without a size n times: its wake-up is lost each
  // time the number of messages comes round to none.
  lemma {:induction false} OverwritesCount(s: System, steps: seq<Step>)
    requires Legal(s, steps) && !s.q.sized && forall i :: 0 <= i < |steps| ==> steps[i] == SendISR(true)
    ensures
      var q := RunAll(s, steps).q;
      && q.messages == (s.q.messages + |steps|) % (MAX + 1) && q.length == s.q.length
      && q.toSend == s.q.toSend && q.wokenSenders == s.q.wokenSenders && q.rxLock == s.q.rxLock
    decreases |steps|
  {
    hide Apply;
    if steps != [] {
      OverwriteCounts(s);
      OverwritesCount(Apply(s, steps[0]), steps[1..]);
    }
  }

  lemma OverwriteCounts(s: System)
    requires Enabled(s, SendISR(true)) && !s.q.sized
    ensures
      var q := Apply(s, SendISR(true)).q;
      && q.messages == OneMore(s.q.messages) && q.length == s.q.length && !q.sized
      && q.toSend == s.q.toSend && q.wokenSenders == s.q.wokenSenders && q.rxLock == s.q.rxLock
  {
  }

  lemma OverwritesLose(s: System, steps: seq<Step>)
    requires Legal(s, steps) && !s.q.sized && forall i :: 0 <= i < |steps| ==> steps[i] == SendISR(true)
    requires s.q.length == 1
    ensures SendersServed(RunAll(s, steps).q) <==>
      || (s.q.messages + |steps|) % (MAX + 1) != 0
      || s.q.toSend == [] || |s.q.wokenSenders| + Pending(s.q.rxLock) > 0
  {
    hide RunAll, Legal;
    OverwritesCount(s, steps);
  }

  ghost predicate Reachable(length: Count, sized: bool, s: System) {
    exists steps :: Legal(Initial(length, sized), steps) && RunAll(Initial(length, sized), steps) == s
  }

  lemma {:induction false} RunAllThen(s: System, steps: seq<Step>, step: Step)
    requires Legal(s, steps) && Enabled(RunAll(s, steps), step)
    ensures Legal(s, steps + [step]) && RunAll(s, steps + [step]) == Apply(RunAll(s, steps), step)
    decreases |steps|
  {
    hide Apply, Enabled;
    if steps == [] {
      assert steps + [step] == [step];
      assert Legal(Apply(s, step), [step][1..]);
    } else {
      assert (steps + [step])[1..] == steps[1..] + [step];
      RunAllThen(Apply(s, steps[0]), steps[1..], step);
    }
  }

  lemma ThenReachable(length: Count, sized: bool, s: System, step: Step)
    requires Reachable(length, sized, s) && Enabled(s, step)
    ensures Reachable(length, sized, Apply(s, step))
  {
    hide Apply, Enabled;
    var steps :| Legal(Initial(length, sized), steps) && RunAll(Initial(length, sized), steps) == s;
    RunAllThen(Initial(length, sized), steps, step);
  }

  // Two tasks, 0 and 1, of which 0 may be waiting to receive.
  function Two(q: Control, owner: Owner, first: Pc, second: Pc): System {
    System(q, owner, map[0 := first, 1 := second])
  }

  lemma TwoReadied(q: Control, q': Control, owner: Owner, first: Pc, second: Pc)
    requires first.Waiting? ==> 0 in q'.toReceive || 0 in q'.toSend
    requires !second.Waiting?
    ensures Readied(Two(q, owner, first, second), q') == Two(q', owner, first, second)
  {
    assert Readied(Two(q, owner, first, second), q').pc == map[0 := first, 1 := second];
  }

  lemma TwoGoto(q: Control, owner: Owner, first: Pc, second: Pc, p: Pc)
    ensures Two(q, owner, first, second).Goto(q, 0, p) == Two(q, owner, p, second)
    ensures Two(q, owner, first, second).Goto(q, 1, p) == Two(q, owner, first, p)
  {
    assert map[0 := first, 1 := second][0 := p] == map[0 := p, 1 := second];
    assert map[0 := first, 1 := second][1 := p] == map[0 := first, 1 := p];
  }

  const CALL: Call := Receive(false)
  const POST: Call := Send(false)

  // A queue of one item, in which task 0 may be parked in a call. Items have a size if it receives.
  function Parked0(call: Call, messages: Count, rxLock: Lock, txLock: Lock, parked: bool): Control {
    Control(1, call.Receive?, messages, rxLock, txLock, if call.Send? && parked then [0] else [],
            if call.Receive? && parked then [0] else [], {}, {})
  }

  function Quiet(messages: Count, rxLock: Lock, txLock: Lock, parked: bool): Control {
    Parked0(CALL, messages, rxLock, txLock, parked)
  }

  // The number of messages at which a call waits.
  function Stuck(call: Call): Count { if call.Receive? then 0 else 1 }

  lemma Next(s: System, step: Step, s': System)
    requires Reachable(1, s.q.sized, s) && Enabled(s, step) && Apply(s, step) == s'
    ensures Reachable(1, s.q.sized, s')
  {
    hide Apply, Enabled, Reachable;
    ThenReachable(1, s.q.sized, s, step);
  }

  lemma AtStart(sized: bool)
    ensures Reachable(1, sized, Initial(1, sized))
  {
    assert Legal(Initial(1, sized), []) && RunAll(Initial(1, sized), []) == Initial(1, sized);
  }

  // The queue comes to hold as many messages as make the call wait.
  lemma Stock(call: Call)
    requires call == CALL || call == POST
    ensures Reachable(1, call.Receive?, System(Parked0(call, Stuck(call), UNLOCKED, UNLOCKED, false), Nobody, map[]))
  {
    hide Reachable, Readied;
    var q := Parked0(call, 0, UNLOCKED, UNLOCKED, false);
    AtStart(call.Receive?);
    assert Initial(1, call.Receive?) == System(q, Nobody, map[]);
    if call == POST {
      var s := System(Parked0(call, 1, UNLOCKED, UNLOCKED, false), Nobody, map[]);
      assert Readied(System(q, Nobody, map[]), s.q) == s by { NobodyReadied(q, s.q); }
      Next(System(q, Nobody, map[]), SendISR(false), s);
    }
  }

  lemma NobodyReadied(q: Control, q': Control)
    ensures Readied(System(q, Nobody, map[]), q') == System(q', Nobody, map[])
  {
  }

  // Task 0 finds the queue empty, or full, and waits.
  lemma FirstStarts(call: Call)
    requires call == CALL || call == POST
    ensures Reachable(1, call.Receive?,
                      Two(Parked0(call, Stuck(call), UNLOCKED, UNLOCKED, false), Nobody, Trying(call, true), Idle))
  {
    hide Reachable, Readied;
    var q := Parked0(call, Stuck(call), UNLOCKED, UNLOCKED, false);
    var s := System(q, Nobody, map[1 := Idle]);
    Stock(call);
    Next(System(q, Nobody, map[]), Start(1, call, false), System(q, Nobody, map[1 := Trying(call, false)]));
    Next(System(q, Nobody, map[1 := Trying(call, false)]), Run(1, false, 0), s);
    Next(s, Start(0, call, true), Two(q, Nobody, Trying(call, true), Idle));
  }

  lemma FirstTries(call: Call)
    requires call == CALL || call == POST
    ensures Reachable(1, call.Receive?,
                      Two(Parked0(call, Stuck(call), UNLOCKED, UNLOCKED, false), Nobody, Suspending(call), Idle))
  {
    hide Reachable, Readied;
    var q := Parked0(call, Stuck(call), UNLOCKED, UNLOCKED, false);
    FirstStarts(call);
    Next(Two(q, Nobody, Trying(call, true), Idle), Run(0, false, 0), Two(q, Nobody, Suspending(call), Idle));
  }

  lemma FirstLocks(call: Call)
    requires call == CALL || call == POST
    ensures Reachable(1, call.Receive?, Two(Parked0(call, Stuck(call), 0, 0, false), Owner(0), Checking(call), Idle))
  {
    hide Reachable, Readied;
    var q := Parked0(call, Stuck(call), UNLOCKED, UNLOCKED, false);
    FirstTries(call);
    Next(Two(q, Nobody, Suspending(call), Idle), Run(0, false, 0), Two(q, Owner(0), Locking(call), Idle));
    var locked := Parked0(call, Stuck(call), 0, 0, false);
    Next(Two(q, Owner(0), Locking(call), Idle), Run(0, false, 0), Two(locked, Owner(0), Checking(call), Idle));
  }

  lemma FirstTests(call: Call)
    requires call == CALL || call == POST
    ensures Reachable(1, call.Receive?, Two(Parked0(call, Stuck(call), 0, 0, false), Owner(0), Parking(call), Idle))
  {
    hide Reachable, Readied;
    var q := Parked0(call, Stuck(call), 0, 0, false);
    FirstLocks(call);
    Next(Two(q, Owner(0), Checking(call), Idle), Run(0, false, 0), Two(q, Owner(0), Testing(call), Idle));
    Next(Two(q, Owner(0), Testing(call), Idle), Run(0, false, 0), Two(q, Owner(0), Parking(call), Idle));
  }

  lemma FirstParks(call: Call)
    requires call == CALL || call == POST
    ensures Reachable(1, call.Receive?,
                      Two(Parked0(call, Stuck(call), 0, 0, true), Owner(0), UnlockingTx(call, Parked), Idle))
  {
    hide Reachable, Readied;
    var q, p := Parked0(call, Stuck(call), 0, 0, false), Parked0(call, Stuck(call), 0, 0, true);
    FirstTests(call);
    assert Paste([], 0, 0) == [0];
    Next(Two(q, Owner(0), Parking(call), Idle), Run(0, false, 0), Two(p, Owner(0), UnlockingTx(call, Parked), Idle));
  }

  lemma FirstUnlocks(call: Call)
    requires call == CALL || call == POST
    ensures Reachable(1, call.Receive?,
                      Two(Parked0(call, Stuck(call), 0, UNLOCKED, true), Owner(0), UnlockingRx(call, Parked), Idle))
  {
    hide Reachable, Readied;
    var p, u := Parked0(call, Stuck(call), 0, 0, true), Parked0(call, Stuck(call), 0, UNLOCKED, true);
    var tx, rx := UnlockingTx(call, Parked), UnlockingRx(call, Parked);
    FirstParks(call);
    TwoGoto(p, Owner(0), tx, Idle, rx);
    TwoReadied(p, u, Owner(0), rx, Idle);
    Next(Two(p, Owner(0), tx, Idle), Run(0, false, 0), Two(u, Owner(0), rx, Idle));
  }

  lemma FirstWaits(call: Call)
    requires call == CALL || call == POST
    ensures Reachable(1, call.Receive?,
                      Two(Parked0(call, Stuck(call), UNLOCKED, UNLOCKED, true), Nobody, Waiting(call), Idle))
  {
    hide Reachable, Readied;
    var u, v := Parked0(call, Stuck(call), 0, UNLOCKED, true), Parked0(call, Stuck(call), UNLOCKED, UNLOCKED, true);
    var rx, r := UnlockingRx(call, Parked), Resuming(call, Parked);
    FirstUnlocks(call);
    TwoGoto(u, Owner(0), rx, Idle, r);
    TwoReadied(u, v, Owner(0), r, Idle);
    Next(Two(u, Owner(0), rx, Idle), Run(0, false, 0), Two(v, Owner(0), r, Idle));
    Next(Two(v, Owner(0), r, Idle), Run(0, false, 0), Two(v, Nobody, Waiting(call), Idle));
  }

  // Interrupts overwrite an item without a size again and again while task 0 waits to send.
  lemma {:induction false} Overwrites(n: nat)
    requires n < MAX
    ensures Reachable(1, false, Two(Parked0(POST, 1 + n, UNLOCKED, UNLOCKED, true), Nobody, Waiting(POST), Idle))
  {
    hide Reachable, Readied;
    if n == 0 {
      FirstWaits(POST);
    } else {
      Overwrites(n - 1);
      OverwriteOnce(n, 1 + n);
    }
  }

  lemma OverwriteOnce(m: Count, m': Count)
    requires m > 0 && m' == OneMore(m)
    requires Reachable(1, false, Two(Parked0(POST, m, UNLOCKED, UNLOCKED, true), Nobody, Waiting(POST), Idle))
    ensures Reachable(1, false, Two(Parked0(POST, m', UNLOCKED, UNLOCKED, true), Nobody, Waiting(POST), Idle))
  {
    hide Reachable, Readied;
    var q, more := Parked0(POST, m, UNLOCKED, UNLOCKED, true), Parked0(POST, m', UNLOCKED, UNLOCKED, true);
    TwoReadied(q, more, Nobody, Waiting(POST), Idle);
    Next(Two(q, Nobody, Waiting(POST), Idle), SendISR(true), Two(more, Nobody, Waiting(POST), Idle));
  }

  // Overwriting once more takes the number of messages from 255 to none: task 0 waits to send to an
  // empty queue, and no task is left that was woken for it.
  lemma WrappedMessagesLoseWakeUp()
    ensures Reachable(1, false, Two(Parked0(POST, 0, UNLOCKED, UNLOCKED, true), Nobody, Waiting(POST), Idle))
    ensures !Served(Parked0(POST, 0, UNLOCKED, UNLOCKED, true))
  {
    hide Reachable;
    Overwrites(MAX - 1);
    OverwriteOnce(MAX, 0);
  }

  // Task 1 looks in vain too, and locks the queue.
  lemma SecondLocks()
    ensures Reachable(1, true, Two(Quiet(0, 0, 0, true), Owner(1), Waiting(CALL), Checking(CALL)))
  {
    hide Reachable, Readied;
    var v, w := Quiet(0, UNLOCKED, UNLOCKED, true), Waiting(CALL);
    FirstWaits(CALL);
    Next(Two(v, Nobody, w, Idle), Start(1, CALL, true), Two(v, Nobody, w, Trying(CALL, true)));
    Next(Two(v, Nobody, w, Trying(CALL, true)), Run(1, false, 0), Two(v, Nobody, w, Suspending(CALL)));
    Next(Two(v, Nobody, w, Suspending(CALL)), Run(1, false, 0), Two(v, Owner(1), w, Locking(CALL)));
    var locked := Quiet(0, 0, 0, true);
    Next(Two(v, Owner(1), w, Locking(CALL)), Run(1, false, 0), Two(locked, Owner(1), w, Checking(CALL)));
  }

  // Interrupts post and receive in turn while the queue is locked.
  lemma {:induction false} Storm(n: nat)
    requires n <= LOCK_MAX
    ensures Reachable(1, true, Two(Quiet(0, n, n, true), Owner(1), Waiting(CALL), Checking(CALL)))
  {
    hide Reachable, Readied;
    if n == 0 {
      SecondLocks();
    } else {
      Storm(n - 1);
      var q, posted, taken := Quiet(0, n - 1, n - 1, true), Quiet(1, n - 1, n, true), Quiet(0, n, n, true);
      var w, c := Waiting(CALL), Checking(CALL);
      TwoReadied(q, posted, Owner(1), w, c);
      Next(Two(q, Owner(1), w, c), SendISR(false), Two(posted, Owner(1), w, c));
      TwoReadied(posted, taken, Owner(1), w, c);
      Next(Two(posted, Owner(1), w, c), ReceiveISR, Two(taken, Owner(1), w, c));
    }
  }

  lemma Wrapped()
    ensures
      var q := Quiet(1, LOCK_MAX, -LOCK_MAX - 1, true);
      Reachable(1, true, Two(q, Owner(1), Waiting(CALL), UnlockingTx(CALL, TimedOut)))
  {
    hide Reachable, Readied;
    Storm(LOCK_MAX);
    var w := Waiting(CALL);
    var q, wrapped := Quiet(0, LOCK_MAX, LOCK_MAX, true), Quiet(1, LOCK_MAX, -LOCK_MAX - 1, true);
    TwoReadied(q, wrapped, Owner(1), w, Checking(CALL));
    Next(Two(q, Owner(1), w, Checking(CALL)), SendISR(false), Two(wrapped, Owner(1), w, Checking(CALL)));
    var tx := UnlockingTx(CALL, TimedOut);
    Next(Two(wrapped, Owner(1), w, Checking(CALL)), Run(1, true, 0), Two(wrapped, Owner(1), w, tx));
  }

  // The 128th post makes the count negative, so that unlocking wakes nobody: task 0 waits beside a
  // message, and no task is left that was woken for it.
  lemma WrappedCountLosesWakeUp()
    ensures Reachable(1, true, Two(Quiet(1, UNLOCKED, UNLOCKED, true), Nobody, Waiting(CALL), Idle))
    ensures !Served(Quiet(1, UNLOCKED, UNLOCKED, true))
  {
    hide Reachable, Readied;
    Wrapped();
    var w := Waiting(CALL);
    var wrapped := Quiet(1, LOCK_MAX, -LOCK_MAX - 1, true);
    var u := Quiet(1, LOCK_MAX, UNLOCKED, true);
    var tx, rx, r := UnlockingTx(CALL, TimedOut), UnlockingRx(CALL, TimedOut), Resuming(CALL, TimedOut);
    TwoGoto(wrapped, Owner(1), w, tx, rx);
    TwoReadied(wrapped, u, Owner(1), w, rx);
    Next(Two(wrapped, Owner(1), w, tx), Run(1, true, 0), Two(u, Owner(1), w, rx));
    var v := Quiet(1, UNLOCKED, UNLOCKED, true);
    TwoGoto(u, Owner(1), w, rx, r);
    TwoReadied(u, v, Owner(1), w, r);
    Next(Two(u, Owner(1), w, rx), Run(1, true, 0), Two(v, Owner(1), w, r));
    Next(Two(v, Owner(1), w, r), Run(1, true, 0), Two(v, Nobody, w, Idle));
  }
}
