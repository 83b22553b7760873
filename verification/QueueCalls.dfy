// queue.c, one call from its first look at the queue to its return: what xQueueGenericSend and
// xQueueGenericReceive decide in the section in which they hold the queue locked, whatever interrupts do
// meanwhile, and where the task is when it lets the queue go.
module QueueCalls {
  import Rings
  import opened QueueProtocol

  // The queue has what the call needs: an item, or room for one.
  predicate Possible(q: Control, call: Call) {
    match call
    case Send(overwrite) => q.messages < q.length || overwrite
    case Receive(_) => q.messages > 0
  }

  predicate OnEither(q: Control, t: Task) { t in q.toSend || t in q.toReceive }

  // The first critical section: a call that can be carried out ends; one that cannot ends as well, if it
  // is not to wait.
  lemma TryMeans(s: System, t: Task, expired: bool, place: nat)
    requires Enabled(s, Run(t, expired, place)) && s.At(t).Trying?
    ensures
      var r, call := Apply(s, Run(t, expired, place)), s.At(t).call;
      && r.owner == s.owner
      && r.At(t) == (if s.At(t).block && !Possible(s.q, call) then Suspending(call) else Idle)
  {
  }

  // Then the task suspends the scheduler and locks the queue.
  lemma LockMeans(s: System, t: Task, expired: bool, place: nat)
    requires Enabled(s, Run(t, expired, place)) && (s.At(t).Suspending? || s.At(t).Locking?)
    ensures
      var r, call := Apply(s, Run(t, expired, place)), s.At(t).call;
      if s.At(t).Suspending? then r.owner == Owner(t) && r.q == s.q && r.At(t) == Locking(call)
      else
        && r.owner == s.owner && r.At(t) == Checking(call)
        && r.q == s.q.(txLock := r.q.txLock, rxLock := r.q.rxLock)
        && r.q.txLock == (if s.q.txLock == -1 then 0 else s.q.txLock)
        && r.q.rxLock == (if s.q.rxLock == -1 then 0 else s.q.rxLock)
  {
  }

  // Another task goes on where it was; if it waited and has been taken off the lists, from the top of its
  // loop.
  lemma OthersStay(s: System, step: Step, u: Task)
    requires Enabled(s, step) && Placed(s, u) && !((step.Start? || step.Run?) && step.t == u)
    ensures
      var r := Apply(s, step);
      r.At(u) == if s.At(u).Waiting? && !OnEither(r.q, u) then Trying(s.At(u).call, true) else s.At(u)
  {
    hide UnlockedTx, UnlockedRx;
  }

  // The end of a wait by the tick: the task is off the lists and everything else in the queue as it was.
  lemma TimeOutMeans(s: System, t: Task)
    requires Inv(s) && Enabled(s, TimeOut(t))
    ensures
      var r := Apply(s, TimeOut(t));
      && r.q == s.q.(toSend := r.q.toSend, toReceive := r.q.toReceive) && r.owner == s.owner
      && !OnEither(r.q, t) && r.At(t) == Trying(s.At(t).call, true)
      && (forall u :: u != t ==> (u in r.q.toSend <==> u in s.q.toSend))
      && (forall u :: u != t ==> (u in r.q.toReceive <==> u in s.q.toReceive))
  {
    hide Rings.NoDup, Served, LocksFit;
    assert Placed(s, t);
    WithoutIs(s.q.toSend, t);
    WithoutIs(s.q.toReceive, t);
    OthersStay(s, TimeOut(t), t);
  }

  lemma WithoutIs(l: seq<Task>, t: Task)
    requires Rings.NoDup(l)
    ensures t !in Rings.Without(l, t) && forall u :: u != t ==> (u in Rings.Without(l, t) <==> u in l)
  {
    if t in l {
      var p := Rings.Find(l, t);
      assert l == l[..p] + [t] + l[p + 1..];
    }
  }

  // ---------------------------------------------------------------- what a call decides

  // The queue is full, or empty, as the call would wait for: prvIsQueueFull and prvIsQueueEmpty.
  predicate Exhausted(q: Control, call: Call) {
    if call.Send? then q.messages == q.length else q.messages == 0
  }

  datatype Verdict = Undecided | GivesUp | Waits | TriesAgain

  // The task's own steps from xTaskCheckForTimeOut on: the first asks whether the time is up, the second
  // looks whether the queue is still exhausted.
  function Decides(s: System, steps: seq<Step>, t: Task, call: Call, asked: bool): Verdict
    requires Legal(s, steps)
    decreases |steps|
  {
    if steps == [] then Undecided
    else if !(steps[0].Run? && steps[0].t == t) then Decides(Apply(s, steps[0]), steps[1..], t, call, asked)
    else if !asked then (if steps[0].expired then GivesUp else Decides(Apply(s, steps[0]), steps[1..], t, call, true))
    else if Exhausted(s.q, call) then Waits else TriesAgain
  }

  // The task has the scheduler suspended until the last of the steps.
  predicate Holds(s: System, steps: seq<Step>, t: Task)
    requires Legal(s, steps)
    decreases |steps|
  {
    steps == [] || (s.owner == Owner(t) && Holds(Apply(s, steps[0]), steps[1..], t))
  }

  predicate Leaving(p: Pc, call: Call, outcome: Outcome) {
    p == UnlockingTx(call, outcome) || p == UnlockingRx(call, outcome) || p == Resuming(call, outcome)
  }

  // On its way out, or about to put itself on the list for it.
  predicate Bound(p: Pc, call: Call, verdict: Verdict) {
    match verdict
    case Undecided => false
    case GivesUp => Leaving(p, call, TimedOut)
    case Waits => p == Parking(call) || Leaving(p, call, Parked)
    case TriesAgain => Leaving(p, call, Retry)
  }

  // Where the task is once it has resumed the scheduler.
  predicate Ended(s: System, t: Task, call: Call, verdict: Verdict) {
    match verdict
    case Undecided => false
    case GivesUp => s.At(t) == Idle
    case Waits => s.At(t) == if OnEither(s.q, t) then Waiting(call) else Trying(call, true)
    case TriesAgain => s.At(t) == Trying(call, true)
  }

  lemma BoundStep(s: System, step: Step, t: Task, call: Call, verdict: Verdict)
    requires Enabled(s, step) && s.owner == Owner(t) && Bound(s.At(t), call, verdict)
    ensures
      var r := Apply(s, step);
      if r.owner == Owner(t) then Bound(r.At(t), call, verdict)
      else r.owner == Nobody && Ended(r, t, call, verdict)
  {
    hide UnlockedTx, UnlockedRx;
  }

  lemma {:induction false} BoundEnds(s: System, steps: seq<Step>, t: Task, call: Call, verdict: Verdict)
    requires Legal(s, steps) && Holds(s, steps, t) && RunAll(s, steps).owner == Nobody
    requires s.owner == Owner(t) && Bound(s.At(t), call, verdict)
    ensures Ended(RunAll(s, steps), t, call, verdict)
    decreases |steps|
  {
    hide Apply, Enabled, Bound, Ended;
    if steps != [] {
      BoundStep(s, steps[0], t, call, verdict);
      if Apply(s, steps[0]).owner == Owner(t) {
        BoundEnds(Apply(s, steps[0]), steps[1..], t, call, verdict);
      } else {
        assert steps[1..] == [] by { HoldsOn(Apply(s, steps[0]), steps[1..], t); }
      }
    }
  }

  lemma HoldsOn(s: System, steps: seq<Step>, t: Task)
    requires Legal(s, steps) && Holds(s, steps, t) && s.owner != Owner(t)
    ensures steps == []
  {
  }

  lemma DecidingStep(s: System, step: Step, t: Task, call: Call, asked: bool)
    requires Enabled(s, step) && s.owner == Owner(t)
    requires s.At(t) == if asked then Testing(call) else Checking(call)
    ensures
      var r := Apply(s, step);
      && r.owner == Owner(t)
      && if !(step.Run? && step.t == t) then r.At(t) == s.At(t)
         else if asked then Bound(r.At(t), call, if Exhausted(s.q, call) then Waits else TriesAgain)
         else if step.expired then Bound(r.At(t), call, GivesUp) else r.At(t) == Testing(call)
  {
    hide UnlockedTx, UnlockedRx;
  }

  // A call that has locked the queue gives up exactly if its time is found to be up. If not, it waits
  // exactly if the queue is still exhausted when it looks, after whatever interrupts have done; but if it
  // is woken before it lets go, and in every other case, it tries again.
  lemma {:induction false} CallEnds(s: System, steps: seq<Step>, t: Task, call: Call, asked: bool)
    requires Legal(s, steps) && Holds(s, steps, t) && RunAll(s, steps).owner == Nobody
    requires s.owner == Owner(t) && s.At(t) == if asked then Testing(call) else Checking(call)
    ensures Ended(RunAll(s, steps), t, call, Decides(s, steps, t, call, asked))
    decreases |steps|
  {
    hide Apply, Enabled, Bound, Ended, Exhausted;
    if steps != [] {
      var r := Apply(s, steps[0]);
      DecidingStep(s, steps[0], t, call, asked);
      if !(steps[0].Run? && steps[0].t == t) {
        CallEnds(r, steps[1..], t, call, asked);
      } else if asked {
        BoundEnds(r, steps[1..], t, call, if Exhausted(s.q, call) then Waits else TriesAgain);
      } else if steps[0].expired {
        BoundEnds(r, steps[1..], t, call, GivesUp);
      } else {
        CallEnds(r, steps[1..], t, call, true);
      }
    }
  }
}
