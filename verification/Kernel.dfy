// tasks.c in its own form: the kernel's global state, updated in place. Every method is proved
// against the functions of Scheduler.dfy and SchedulerRuns.dfy.
module Kernel {
  import opened Rings
  import opened Scheduler
  import opened SchedulerRuns

  class Kernel {
    var tick: nat
    var next: nat
    var delays: seq<seq<Task>>
    var cur: nat
    var ready: seq<Ring<Task>>
    var top: nat
    var pending: seq<Task>
    var terminated: seq<Task>
    var place: map<Task, Place>
    var value: map<Task, nat>
    var priority: map<Task, nat>
    var onEvent: set<Task>
    var current: Task
    var tasks: nat
    var suspended: nat
    var pended: nat
    var yieldPending: bool
    var deleted: nat
    ghost var epoch: nat
    ghost var due: map<Task, nat>
    ghost var interrupts: nat
    ghost var lost: nat

    ghost function Lists(): TaskLists
      reads this
    {
      TaskLists(tick, next, delays, cur, ready, top, pending, terminated, place, value, priority, onEvent,
                current, tasks, epoch, due)
    }

    ghost function State(): Sched
      reads this
    {
      Sched(Lists(), suspended, pended, yieldPending, deleted, interrupts, lost)
    }

    // The first task and the empty lists (prvInitialiseTaskLists).
    constructor (idle: Task)
      ensures State() == Initial(idle)
    {
      var empty := Ring([], 0);
      tick, next := 0, MAX_DELAY;
      delays, cur := [[], []], 0;
      ready, top := [Ring([idle], 0), empty, empty, empty], 0;
      pending, terminated := [], [];
      place, value, priority := map[idle := Ready(0)], map[], map[idle := 0];
      onEvent, current, tasks := {}, idle, 1;
      suspended, pended, yieldPending, deleted := 0, 0, false, 0;
      epoch, due, interrupts, lost := 0, map[], 0, 0;
    }

    method RemoveReady(t: Task, p: nat)
      requires p < |ready| && t in ready[p].items
      modifies this
      ensures var l := old(Lists());
        State() == old(State()).(lists := l.(place := l.place - {t}, ready := l.ready[p := l.ready[p].Remove(t)]))
    {
      ready := ready[p := ready[p].Remove(t)];
      place := place - {t};
    }

    method RemoveDelayed(t: Task, k: nat)
      requires k < |delays|
      modifies this
      ensures var l := old(Lists());
        State() == old(State()).(lists := l.(place := l.place - {t}, delays := l.delays[k := Without(l.delays[k], t)]))
    {
      delays := delays[k := Without(delays[k], t)];
      place := place - {t};
    }

    // uxListRemove( &( pxTCB->xGenericListItem ) )
    method RemoveGeneric(t: Task)
      requires ListsMatch(Lists()) && TasksPlaced(Lists(), {}) && t in place
      modifies this
      ensures State() == old(State()).(lists := Unlist(old(Lists()), t))
    {
      UnlistFits(Lists(), t);
      hide ListsMatch, TasksPlaced, Without;
      match place[t]
      case Ready(p) => RemoveReady(t, p);
      case Delay(k) => RemoveDelayed(t, k);
      case Terminated =>
        terminated := Without(terminated, t);
        place := place - {t};
    }

    // uxListRemove( &( pxTCB->xEventListItem ) ), when it is in a list
    method RemoveEvent(t: Task)
      modifies this
      ensures State() == old(State()).(lists :=
        old(Lists()).(onEvent := old(onEvent) - {t}, pending := Without(old(pending), t)))
    {
      onEvent := onEvent - {t};
      pending := Without(pending, t);
    }

    // prvAddTaskToReadyList
    method AddTaskToReadyList(t: Task)
      requires ListsMatch(Lists()) && TasksPlaced(Lists(), {t})
      modifies this
      ensures State() == old(State()).(lists := AddReady(old(Lists()), t))
    {
      var p := priority[t];
      if p > top { top := p; }
      ready := ready[p := ready[p].InsertEnd(t)];
      place := place[t := Ready(p)];
    }

    // xTaskGenericCreate, once the scheduler runs
    method Create(t: Task, p: nat)
      requires ListsMatch(Lists()) && TasksPlaced(Lists(), {}) && t !in priority
      modifies this
      ensures State() == old(State()).(lists := AddNew(old(Lists()), t, p))
    {
      hide ReadyHold, DelaysHold, Holds, TasksPlaced, AddReady;
      var q := if p >= PRIORITIES then PRIORITIES - 1 else p;
      NewInHand(Lists(), t, q);
      CountNew(t, q);
      AddTaskToReadyList(t);
    }

    method CountNew(t: Task, q: nat)
      modifies this
      ensures var l := old(Lists());
        State() == old(State()).(lists := l.(priority := l.priority[t := q], tasks := l.tasks + 1))
    {
      tasks := tasks + 1;
      priority := priority[t := q];
    }

    // The four statements that move a blocked task to its ready list.
    method MoveToReady(t: Task)
      requires ListsMatch(Lists()) && TasksPlaced(Lists(), {}) && t in place
      modifies this
      ensures State() == old(State()).(lists := Wake(old(Lists()), t))
    {
      hide ListsMatch, TasksPlaced;
      TakeOutKeepsLists(Lists(), t);
      RemoveGeneric(t);
      RemoveEvent(t);
      AddTaskToReadyList(t);
    }

    // prvResetNextTaskUnblockTime
    method ResetNextTaskUnblockTime()
      requires cur < 2 && DelaysInOrder(delays, value)
      modifies this`next
      ensures State() == old(State()).(lists := old(Lists()).(next := FirstWake(old(Lists()))))
    {
      if delays[cur] == [] {
        next := MAX_DELAY;
      } else {
        next := value[delays[cur][0]];
      }
    }

    // taskSWITCH_DELAYED_LISTS
    method SwitchDelayedLists()
      requires cur < 2 && DelaysInOrder(delays, value)
      modifies this
      ensures
        var l := old(Lists());
        var a := l.(epoch := l.epoch + 1, cur := 1 - l.cur);
        State() == old(State()).(lists := a.(next := FirstWake(a)))
    {
      hide DelaysInOrder, FirstWake;
      cur := 1 - cur;
      epoch := epoch + 1;
      ResetNextTaskUnblockTime();
    }

    // The tick and, when it wraps, the lists.
    method AdvanceTick()
      requires Sound(Lists())
      modifies this
      ensures Lists() == Advance(old(Lists())) && State() == old(State()).(lists := Lists())
      ensures cur < |delays|
    {
      hide ListsMatch, TasksPlaced, EventsMatch, WakesFrom, NextIsEarly, DelaysInOrder, FirstWake, Struct;
      assert Struct(Lists(), {}, Earliest(Lists()));
      AdvanceKeeps(Lists());
      AdvanceFits(Lists());
      tick := (tick + 1) % N;
      if tick == 0 {
        SwitchDelayedLists();
      }
    }

    // One round of the loop of xTaskIncrementTick over the delayed list.
    method UnblockHead() returns (more: bool, switch: bool)
      requires Struct(Lists(), {}, 0) && cur < |delays|
      modifies this
      ensures State() == old(State()).(lists := Lists()) && SameButLists(old(Lists()), Lists())
      ensures !more ==> Lists() == PopDue(old(Lists())) && !switch && !PopSwitches(old(Lists()))
      ensures more ==>
        && Struct(Lists(), {}, 0) && cur < |delays| && |delays[cur]| < |old(delays)[cur]|
        && PopDue(Lists()) == PopDue(old(Lists()))
        && (PopSwitches(old(Lists())) <==> switch || PopSwitches(Lists()))
    {
      hide Struct, NextIsEarly;
      more, switch := false, false;
      if delays[cur] == [] {
        next := MAX_DELAY;
      } else {
        PopStep(Lists());
        WakeFits(Lists());
        var t := delays[cur][0];
        if tick < value[t] {
          next := value[t];
        } else {
          MoveToReady(t);
          more := true;
          if priority[t] >= priority[current] {
            switch := true;
          }
        }
      }
    }

    // The loop itself.
    method UnblockDue() returns (switch: bool)
      requires Struct(Lists(), {}, 0) && cur < |delays|
      modifies this
      ensures State() == old(State()).(lists := PopDue(old(Lists())))
      ensures switch <==> PopSwitches(old(Lists()))
    {
      switch := false;
      ghost var s := State();
      hide Struct, NextIsEarly, PopDue, PopSwitches;
      var more := true;
      while more
        invariant more ==> Struct(Lists(), {}, 0) && cur < |delays|
        invariant if more then PopDue(Lists()) == PopDue(s.lists) else Lists() == PopDue(s.lists)
        invariant State() == s.(lists := Lists())
        invariant PopSwitches(s.lists) <==> switch || (more && PopSwitches(Lists()))
        decreases more, if more then |delays[cur]| else 0
      {
        var higher;
        more, higher := UnblockHead();
        if higher {
          switch := true;
        }
      }
    }

    // xTaskIncrementTick
    method IncrementTick() returns (switchRequired: bool)
      requires Sound(Lists()) && pended < PEND_RANGE
      modifies this
      ensures State() == Ticked(old(State()))
      ensures switchRequired <==> yieldPending || (suspended == 0 && TickSwitches(old(Lists())))
    {
      switchRequired := false;
      ghost var l := Lists();
      hide ListsMatch, TasksPlaced, EventsMatch, WakesFrom, NextIsEarly;
      if suspended == 0 {
        AdvanceTick();
        AdvanceKeeps(l);
        RunningHasList(l);
        if tick >= next {
          switchRequired := UnblockDue();
        }
        RunningStays(l);
        if |ready[priority[current]].items| > 1 {
          switchRequired := true;
        }
      } else if pended + 1 < PEND_RANGE {
        pended := pended + 1;
      } else {
        pended := 0;
        lost := lost + 1;
      }
      if yieldPending {
        switchRequired := true;
      }
    }

    // The tick interrupt.
    method TickInterrupt()
      requires Sound(Lists()) && pended < PEND_RANGE
      modifies this
      ensures State() == Ticked(old(State()).(interrupts := old(interrupts) + 1))
    {
      hide Struct, NextIsEarly;
      interrupts := interrupts + 1;
      var switchRequired := IncrementTick();
    }

    // vTaskSuspendAll
    method SuspendAll()
      modifies this`suspended
      ensures State() == old(State()).(suspended := old(suspended) + 1)
    {
      suspended := suspended + 1;
    }

    // The first loop of xTaskResumeAll.
    method MovePendingReady()
      requires Sound(Lists())
      modifies this
      ensures State() == DrainPending(old(State()))
    {
      ghost var s := State();
      hide ReadyHold, DelaysHold, Holds, TasksPlaced, EventsMatch, WakesFrom, NextIsEarly;
      while pending != []
        invariant Sound(Lists()) && DrainPending(State()) == DrainPending(s)
        decreases |pending|
      {
        DrainStep(Lists());
        var t := pending[0];
        MoveToReady(t);
        if priority[t] >= priority[current] {
          yieldPending := true;
        }
      }
    }

    // Its second loop.
    method ProcessPendedTicks()
      requires Sound(Lists()) && suspended == 0 && pended < PEND_RANGE
      modifies this
      ensures State() == RunPended(old(State()))
    {
      ghost var s := State();
      hide Struct, NextIsEarly, Tick, TickSwitches;
      while pended > 0
        invariant Sound(Lists()) && RunPended(State()) == RunPended(s)
        invariant suspended == 0 && pended < PEND_RANGE
        decreases pended
      {
        TickIsExact(Lists());
        var switchRequired := IncrementTick();
        if switchRequired {
          yieldPending := true;
        }
        pended := pended - 1;
      }
    }

    // xTaskResumeAll
    method ResumeAll() returns (alreadyYielded: bool)
      requires Inv(State()) && suspended > 0
      modifies this
      ensures State() == SchedulerRuns.ResumeAll(old(State()))
      ensures alreadyYielded <==> suspended == 0 && yieldPending
    {
      hide Sound, DrainPending, RunPended;
      alreadyYielded := false;
      suspended := suspended - 1;
      if suspended == 0 {
        DrainKeeps(State());
        MovePendingReady();
        RunPendedKeeps(State());
        ProcessPendedTicks();
        alreadyYielded := yieldPending;
      }
    }

    // The loop of taskSELECT_HIGHEST_PRIORITY_TASK.
    method LowerTop()
      requires top < |ready| && exists q :: 0 <= q <= top && ready[q].items != []
      modifies this`top
      ensures top == HighestReady(ready, old(top))
    {
      while ready[top].items == []
        invariant top < |ready| && exists q :: 0 <= q <= top && ready[q].items != []
        invariant HighestReady(ready, top) == HighestReady(ready, old(top))
        decreases top
      {
        top := top - 1;
      }
    }

    // taskSELECT_HIGHEST_PRIORITY_TASK
    method SelectHighestPriorityTask()
      requires Sound(Lists()) && SomeReady(Lists())
      modifies this
      ensures State() == old(State()).(lists := SelectTask(old(Lists())))
    {
      hide Struct, NextIsEarly, SomeReady, HighestReady;
      TopCoversReady(Lists());
      LowerTop();
      var r := ready[top].Next();
      ready := ready[top := r];
      current := r.Current();
    }

    // vTaskSwitchContext
    method SwitchContext()
      requires Sound(Lists()) && SomeReady(Lists())
      modifies this
      ensures State() == Switched(old(State()))
    {
      hide Sound, SomeReady, SelectTask;
      if suspended > 0 {
        yieldPending := true;
      } else {
        yieldPending := false;
        SelectHighestPriorityTask();
      }
    }

    // prvAddCurrentTaskToDelayedList
    method AddCurrentTaskToDelayedList(timeToWake: nat, ghost wakeDue: nat)
      requires cur < 2 && |delays| == 2 && DelaysInOrder(delays, value) && timeToWake == wakeDue % N
      requires forall u :: u in delays[0] || u in delays[1] ==> u in value
      modifies this
      ensures State() == old(State()).(lists := AddDelayed(old(Lists()), old(current), wakeDue))
    {
      hide InSorted, DelaysInOrder;
      if timeToWake < tick {
        InsertDelayed(1 - cur, timeToWake, wakeDue);
      } else {
        InsertDelayed(cur, timeToWake, wakeDue);
        if timeToWake < next {
          next := timeToWake;
        }
      }
    }

    // vListInsert on one of the delayed lists, with the value it is sorted by.
    method InsertDelayed(k: nat, timeToWake: nat, ghost wakeDue: nat)
      requires k < |delays| && forall u :: u in delays[k] ==> u in value
      modifies `delays, `place, `value, `due
      ensures delays == old(delays)[k := InSorted(old(delays)[k], old(value), current, timeToWake)]
      ensures place == old(place)[current := Delay(k)]
      ensures value == old(value)[current := timeToWake] && due == old(due)[current := wakeDue]
    {
      delays := delays[k := InSorted(delays[k], value, current, timeToWake)];
      place := place[current := Delay(k)];
      value := value[current := timeToWake];
      due := due[current := wakeDue];
    }

    // The running task leaves its ready list for a delayed list.
    method DelayCurrent(ticks: nat)
      requires Sound(Lists()) && Lists().IsReady(current) && MayBlockFor(Lists(), ticks)
      modifies this
      ensures State() == old(State()).(lists := Block(old(Lists()), ticks, false))
    {
      hide ReadyHold, DelaysHold, Holds, TasksPlaced, EventsMatch, WakesFrom, NextIsEarly, AddDelayed;
      ghost var l := Lists();
      TakeOutKeeps(l, current, Earliest(l));
      AddDelayedFitsInHand(TakeOut(l, current), current);
      LeavesNothingElse(l);
      WrapOfSum(epoch, tick, ticks);
      var timeToWake := (tick + ticks) % N;
      RemoveGeneric(current);
      AddCurrentTaskToDelayedList(timeToWake, l.Clock() + ticks);
    }

    // The bodies of vTaskDelay and vTaskPlaceOnEventList.
    method BlockCurrent(ticks: nat, withEvent: bool)
      requires Sound(Lists()) && Lists().IsReady(current) && MayBlockFor(Lists(), ticks)
      modifies this
      ensures State() == old(State()).(lists := Block(old(Lists()), ticks, withEvent))
    {
      hide Sound;
      DelayCurrent(ticks);
      if withEvent {
        onEvent := onEvent + {current};
      }
    }

    // xTaskRemoveFromEventList, on the list whose head is t
    method RemoveFromEventList(t: Task) returns (higher: bool)
      requires Enabled(State(), EventHead(t))
      modifies this
      ensures State() == Apply(old(State()), EventHead(t))
      ensures higher <==> priority[t] > priority[current]
    {
      hide ReadyHold, DelaysHold, Holds, TasksPlaced, EventsMatch, WakesFrom, NextIsEarly;
      EventTask(Lists(), t);
      if suspended == 0 {
        MoveToReady(t);
      } else {
        onEvent := onEvent - {t};
        pending := pending + [t];
      }
      higher := priority[t] > priority[current];
      if higher {
        yieldPending := true;
      }
    }

    // The first critical section of vTaskDelete.
    method Delete(t: Task)
      requires Sound(Lists()) && t in place
      modifies this
      ensures State() == old(State()).(
                lists := AddTerminated(TakeOut(old(Lists()), t), t), deleted := old(deleted) + 1)
    {
      hide ReadyHold, DelaysHold, Holds, TasksPlaced, EventsMatch, WakesFrom, NextIsEarly;
      TakeOutKeepsLists(Lists(), t);
      RemoveGeneric(t);
      RemoveEvent(t);
      terminated := terminated + [t];
      place := place[t := Terminated];
      deleted := deleted + 1;
    }

    // prvCheckTasksWaitingTermination, undisturbed: it frees every task that waits and ends.
    method CheckTasksWaitingTermination()
      requires Inv(State()) && DeletedCounted(State()) && suspended == 0 && current !in terminated
      modifies this
      ensures Inv(State()) && deleted == 0 && terminated == []
      ensures forall t :: t in priority <==> t in old(priority) && t !in old(terminated)
      ensures tasks + |old(terminated)| == old(tasks)
    {
      ghost var s := State();
      ghost var q, k := terminated, 0;
      hide Struct, NextIsEarly;
      while deleted > 0
        invariant Inv(State()) && DeletedCounted(State()) && suspended == 0 && current == s.lists.current
        invariant k <= |q| && terminated == q[k..]
        invariant forall t :: t in priority <==> t in s.lists.priority && t !in q[..k]
        invariant tasks + k == s.lists.tasks
        decreases deleted
      {
        NothingHeldBack(State());
        SuspendAll();
        var listIsEmpty := terminated == [];
        var yielded := ResumeAll();
        if !listIsEmpty {
          assert q[k] in q && q[..k + 1] == q[..k] + [q[k]];
          FreeHead();
          k := k + 1;
        }
      }
    }

    method FreeHead()
      requires Inv(State()) && DeletedCounted(State()) && terminated != [] && terminated[0] != current
      modifies this
      ensures State() == Freed(old(State())) && Inv(State()) && DeletedCounted(State())
      ensures terminated == old(terminated)[1..] && tasks == old(tasks) - 1
      ensures priority == old(priority) - {old(terminated)[0]}
      ensures current == old(current) && suspended == old(suspended)
    {
      hide ListsMatch, TasksPlaced, EventsMatch, WakesFrom, NextIsEarly, Unlist;
      FreedKeeps(State());
      LeavesNothingTerminated(Lists());
      var t := terminated[0];
      RemoveGeneric(t);
      tasks := tasks - 1;
      priority := priority - {t};
      deleted := deleted - 1;
    }
  }

  lemma WakeFits(l: TaskLists)
    requires Struct(l, {}, 0) && l.delays[l.cur] != []
    ensures ListsMatch(l) && TasksPlaced(l, {})
  {
  }

  lemma UnlistFits(l: TaskLists, t: Task)
    requires ListsMatch(l) && TasksPlaced(l, {}) && t in l.place
    ensures l.place[t].Ready? ==> l.place[t].list < |l.ready| && t in l.ready[l.place[t].list].items
    ensures l.place[t].Delay? ==> l.place[t].list < |l.delays|
  {
    if l.place[t].Ready? { assert Holds(l.ready[l.place[t].list].items, l.place, l.place[t]); }
  }

  lemma AdvanceFits(l: TaskLists)
    requires Struct(l, {}, Earliest(l))
    ensures l.tick < N && l.cur < 2 && DelaysInOrder(l.delays, l.value)
  {
  }

  lemma AddDelayedFitsInHand(u: TaskLists, t: Task)
    requires Struct(u, {t}, Earliest(u))
    ensures u.cur < 2 && |u.delays| == 2 && DelaysInOrder(u.delays, u.value)
    ensures forall v :: v in u.delays[0] || v in u.delays[1] ==> v in u.value
  {
    assert InWakeOrder(u.delays[0], u.value) && InWakeOrder(u.delays[1], u.value);
    hide ListsMatch, TasksPlaced, EventsMatch;
  }

  lemma RunningStays(l: TaskLists)
    requires Sound(l)
    ensures l.current in l.priority && Tick(l).current == l.current && Tick(l).priority == l.priority
    ensures l.priority[l.current] < |Tick(l).ready|
  {
    hide Struct, NextIsEarly;
    TickIsExact(l);
    RunningHasList(l);
  }

  // A running task is in no event list and not held back.
  lemma LeavesNothingElse(l: TaskLists)
    requires Sound(l) && l.IsReady(l.current)
    ensures TakeOut(l, l.current) == Unlist(l, l.current)
  {
  }

  lemma LeavesNothingTerminated(l: TaskLists)
    requires Sound(l) && l.terminated != []
    ensures var t := l.terminated[0];
      && t in l.place && l.tasks > 0 && TakeOut(l, t) == Unlist(l, t)
      && Unlist(l, t) == l.(place := l.place - {t}, terminated := l.terminated[1..])
  {
    TerminatedHead(l);
  }

  lemma WrapOfSum(epoch: nat, tick: nat, ticks: nat)
    ensures (epoch * N + tick + ticks) % N == (tick + ticks) % N
  {
  }

  lemma FreedKeeps(s: Sched)
    requires Inv(s) && DeletedCounted(s) && s.lists.terminated != [] && s.lists.terminated[0] != s.lists.current
    ensures s.deleted > 0 && Inv(Freed(s)) && DeletedCounted(Freed(s))
  {
    hide Struct, NextIsEarly, Freed;
    StepKeepsInv(s, Reap);
    DeletedCountKept(s, Reap);
  }

  // Suspending and resuming at once changes nothing when nothing is held back.
  lemma NothingHeldBack(s: Sched)
    requires Inv(s) && s.suspended == 0
    ensures Inv(s.(suspended := 1)) && SchedulerRuns.ResumeAll(s.(suspended := 1)) == s
  {
    hide Struct, NextIsEarly;
  }
}
