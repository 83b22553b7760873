// Priority inheritance: the mutex paths of queue.c with vTaskPriorityInherit and
// xTaskPriorityDisinherit of tasks.c. A task that finds a mutex taken lends its priority to the
// holder before it waits; the holder keeps what it was lent until it has given back every mutex.
//
// One step is one call, or one interrupt, as far as tasks can tell: the scheduler is suspended
// from the time a caller finds the mutex taken until it waits, and interrupts do not give mutexes.
module Mutexes {
  import opened Options
  import opened Rings

  type Task = nat
  type MutexId = nat

  // Which list the task's state item is in.
  datatype Place = Ready(priority: nat) | Blocked(mutex: MutexId) | Asleep

  datatype Tcb = Tcb(
    base: nat,                       // uxBasePriority
    priority: nat,                   // uxPriority
    held: nat,                       // uxMutexesHeld
    item: nat,                       // the priority its event item's value stands for
    inUse: bool,                     // taskEVENT_LIST_ITEM_VALUE_IN_USE is set in that value
    place: Place,
    wants: Option<MutexId>,          // the mutex it is in a call to take
    blockedAt: nat)                  // history: its priority when it last began to wait

  datatype Mutex = Mutex(
    free: bool,                      // uxMessagesWaiting == 1
    holder: Option<Task>,            // pxMutexHolder
    waiting: seq<Task>,              // xTasksWaitingToReceive
    since: set<Task>,                // history: those who began to wait on the present holder
    heir: Option<Task>)              // history: the task woken by the last give

  // `yielding` says that a context switch has been asked for and comes next.
  datatype System = System(tasks: seq<Tcb>, mutexes: seq<Mutex>, running: Task, yielding: bool)

  // ---------------------------------------------------------------- the operations

  // vTaskPriorityInherit
  function Inherit(tasks: seq<Tcb>, holder: Task, priority: nat): (r: seq<Tcb>)
    requires holder < |tasks|
    ensures |r| == |tasks|
  {
    var h := tasks[holder];
    if h.priority < priority then
      tasks[holder := h.(item := if h.inUse then h.item else priority,
                         place := if h.place == Ready(h.priority) then Ready(priority) else h.place,
                         priority := priority)]
    else tasks
  }

  predicate Disinherits(t: Tcb) { t.priority != t.base && t.held == 1 }

  // xTaskPriorityDisinherit
  function Disinherit(t: Tcb): Tcb
    requires t.held > 0
  {
    if Disinherits(t) then t.(held := 0, place := Ready(t.base), priority := t.base, item := t.base)
    else t.(held := t.held - 1)
  }

  // Where vListInsert puts a task of the given priority: before the first of a lower one.
  function FirstLower(tasks: seq<Tcb>, waiting: seq<Task>, priority: nat): (p: nat)
    ensures p <= |waiting|
    ensures forall i :: 0 <= i < p && waiting[i] < |tasks| ==> tasks[waiting[i]].item >= priority
    ensures p < |waiting| ==> waiting[p] < |tasks| && tasks[waiting[p]].item < priority
  {
    if waiting == [] || (waiting[0] < |tasks| && tasks[waiting[0]].item < priority) then 0
    else 1 + FirstLower(tasks, waiting[1..], priority)
  }

  predicate InRange(s: System) {
    && s.running < |s.tasks|
    && (forall i :: 0 <= i < |s.mutexes| ==> MutexInRange(s.mutexes[i], |s.tasks|))
  }

  predicate MutexInRange(m: Mutex, tasks: nat) {
    && (m.holder.Some? ==> m.holder.value < tasks)
    && (forall i :: 0 <= i < |m.waiting| ==> m.waiting[i] < tasks)
  }

  // The mutex is there to be taken, in xQueueGenericReceive.
  function Take(s: System, m: MutexId): System
    requires InRange(s) && m < |s.mutexes|
  {
    var r := s.tasks[s.running];
    s.(tasks := s.tasks[s.running := r.(held := r.held + 1, wants := None)],
       mutexes := s.mutexes[m := s.mutexes[m].(free := false, holder := Some(s.running), since := {})])
  }

  // It is not, and the caller waits.
  function WaitFor(s: System, m: MutexId): System
    requires InRange(s) && m < |s.mutexes|
  {
    var x := s.mutexes[m];
    var priority := s.tasks[s.running].priority;
    var tasks := if x.holder.Some? then Inherit(s.tasks, x.holder.value, priority) else s.tasks;
    var r := tasks[s.running];
    s.(tasks := tasks[s.running := r.(place := Blocked(m), wants := None, blockedAt := r.priority)],
       mutexes := s.mutexes[m := x.(waiting := Paste(x.waiting, FirstLower(tasks, x.waiting, r.item), s.running),
                                    since := x.since + {s.running})],
       yielding := true)
  }

  // xTaskRemoveFromEventList: the task leaves the list and is ready to try again.
  function Woken(t: Tcb, m: MutexId): Tcb { t.(place := Ready(t.priority), wants := Some(m)) }

  // xQueueGenericSend by the holder. Without a waiter the switch is asked for if the priority was
  // given back; with one, only if that waiter's priority is above what the giver is left with.
  function Give(s: System, m: MutexId): System
    requires InRange(s) && m < |s.mutexes| && s.tasks[s.running].held > 0
  {
    var x := s.mutexes[m];
    var disinherits := Disinherits(s.tasks[s.running]);
    var tasks := s.tasks[s.running := Disinherit(s.tasks[s.running])];
    if x.waiting == [] then
      s.(tasks := tasks, mutexes := s.mutexes[m := x.(free := true, holder := None)], yielding := disinherits)
    else
      var w := x.waiting[0];
      s.(tasks := tasks[w := Woken(tasks[w], m)],
         mutexes := s.mutexes[m := x.(free := true, holder := None, waiting := x.waiting[1..], heir := Some(w))],
         yielding := tasks[w].priority > tasks[s.running].priority)
  }

  datatype Step =
    | Try(m: MutexId, block: bool)   // the running task, in or at the start of a call to take m
    | Return(m: MutexId)             // the running task gives m back
    | Sleep(inUse: bool)             // it waits for something else, perhaps an event group
    | TimeOut(t: Task)               // the tick ends a wait for a mutex
    | Wake(t: Task, urgent: bool)    // something else a task waited for has come
    | Switch(t: Task)                // vTaskSwitchContext

  predicate Runs(s: System) {
    InRange(s) && !s.yielding
  }

  predicate Highest(s: System, t: Task) {
    && t < |s.tasks| && s.tasks[t].place.Ready?
    && (forall u :: 0 <= u < |s.tasks| && s.tasks[u].place.Ready? ==>
          s.tasks[u].place.priority <= s.tasks[t].place.priority)
  }

  predicate Enabled(s: System, step: Step) {
    && InRange(s)
    && match step
       case Try(m, _) =>
         Runs(s) && m < |s.mutexes| && (s.tasks[s.running].wants.Some? ==> s.tasks[s.running].wants.value == m)
       case Return(m) =>
         Runs(s) && m < |s.mutexes| && s.tasks[s.running].wants.None?
         && s.mutexes[m].holder == Some(s.running) && s.tasks[s.running].held > 0
       case Sleep(_) => Runs(s) && s.tasks[s.running].wants.None?
       case TimeOut(t) => t < |s.tasks| && s.tasks[t].place.Blocked? && s.tasks[t].place.mutex < |s.mutexes|
                          && t in s.mutexes[s.tasks[t].place.mutex].waiting
       case Wake(t, urgent) =>
         && t < |s.tasks| && s.tasks[t].place.Asleep?
         && (s.tasks[t].priority > s.tasks[s.running].priority ==> urgent)
       case Switch(t) => Highest(s, t)
  }

  function Apply(s: System, step: Step): System
    requires Enabled(s, step)
  {
    match step
    case Try(m, block) =>
      if s.mutexes[m].free then Take(s, m)
      else if block then WaitFor(s, m)
      else s.(tasks := s.tasks[s.running := s.tasks[s.running].(wants := None)])
    case Return(m) => Give(s, m)
    case Sleep(inUse) =>
      s.(tasks := s.tasks[s.running := s.tasks[s.running].(place := Asleep, inUse := inUse)], yielding := true)
    case TimeOut(t) =>
      var m := s.tasks[t].place.mutex;
      var x := s.mutexes[m];
      s.(tasks := s.tasks[t := Woken(s.tasks[t], m)],
         mutexes := s.mutexes[m := x.(waiting := Cut(x.waiting, Find(x.waiting, t)))],
         yielding := s.yielding || s.tasks[t].priority >= s.tasks[s.running].priority)
    case Wake(t, urgent) =>
      var u := s.tasks[t];
      s.(tasks := s.tasks[t := u.(place := Ready(u.priority), item := u.priority, inUse := false)],
         yielding := s.yielding || urgent)
    case Switch(t) => s.(running := t, yielding := false)
  }

  // ---------------------------------------------------------------- the code itself

  // The task control blocks and mutexes, updated in place.
  class TaskTable {
    var tasks: seq<Tcb>
    var mutexes: seq<Mutex>
    var current: Task                // pxCurrentTCB
    var yielding: bool

    function Abs(): System
      reads this
    {
      System(tasks, mutexes, current, yielding)
    }

    // vTaskPriorityInherit
    method PriorityInherit(holder: Option<Task>)
      requires InRange(Abs()) && (holder.Some? ==> holder.value < |tasks|)
      modifies this`tasks
      ensures tasks ==
        if holder.Some? then Inherit(old(tasks), holder.value, old(tasks)[current].priority) else old(tasks)
    {
      if holder.Some? {
        var h := holder.value;
        var priority := tasks[current].priority;
        if tasks[h].priority < priority {
          if !tasks[h].inUse {
            tasks := tasks[h := tasks[h].(item := priority)];
          }
          if tasks[h].place == Ready(tasks[h].priority) {
            tasks := tasks[h := tasks[h].(priority := priority)];
            tasks := tasks[h := tasks[h].(place := Ready(priority))];
          } else {
            tasks := tasks[h := tasks[h].(priority := priority)];
          }
        }
      }
    }

    // xTaskPriorityDisinherit
    method PriorityDisinherit(holder: Option<Task>) returns (yieldRequired: bool)
      requires InRange(Abs()) && (holder.Some? ==> holder.value == current && tasks[current].held > 0)
      modifies this`tasks
      ensures yieldRequired <==> holder.Some? && Disinherits(old(tasks)[current])
      ensures tasks == if holder.Some? then old(tasks)[current := Disinherit(old(tasks)[current])] else old(tasks)
    {
      yieldRequired := false;
      if holder.Some? {
        var t := holder.value;
        tasks := tasks[t := tasks[t].(held := tasks[t].held - 1)];
        if tasks[t].priority != tasks[t].base {
          if tasks[t].held == 0 {
            tasks := tasks[t := tasks[t].(priority := tasks[t].base)];
            tasks := tasks[t := tasks[t].(item := tasks[t].priority)];
            tasks := tasks[t := tasks[t].(place := Ready(tasks[t].priority))];
            yieldRequired := true;
          }
        }
      }
    }

    // xTaskRemoveFromEventList, while the scheduler is not suspended
    method RemoveFromEventList(m: MutexId) returns (higher: bool)
      requires InRange(Abs()) && m < |mutexes| && mutexes[m].waiting != []
      requires mutexes[m].waiting[0] < |tasks| && mutexes[m].waiting[0] != current
      modifies this`tasks, this`mutexes
      ensures var w := old(mutexes)[m].waiting[0];
        && tasks == old(tasks)[w := Woken(old(tasks)[w], m)]
        && mutexes == old(mutexes)[m := old(mutexes)[m].(waiting := old(mutexes)[m].waiting[1..], heir := Some(w))]
        && (higher <==> old(tasks)[w].priority > old(tasks)[current].priority)
    {
      var w := mutexes[m].waiting[0];
      mutexes := mutexes[m := mutexes[m].(waiting := mutexes[m].waiting[1..], heir := Some(w))];
      tasks := tasks[w := Woken(tasks[w], m)];
      higher := tasks[w].priority > tasks[current].priority;
    }

    // xQueueGenericSend on a mutex
    method GenericSend(m: MutexId) returns (given: bool)
      requires InRange(Abs()) && m < |mutexes| && !yielding
      requires !mutexes[m].free ==> mutexes[m].holder == Some(current) && tasks[current].held > 0
      requires current !in mutexes[m].waiting
      modifies this
      ensures given <==> !old(mutexes)[m].free
      ensures Abs() == if given then Give(old(Abs()), m) else old(Abs())
    {
      given := !mutexes[m].free;
      if given {
        assert MutexInRange(mutexes[m], |tasks|);
        var yieldRequired := PriorityDisinherit(mutexes[m].holder);
        mutexes := mutexes[m := mutexes[m].(holder := None)];
        mutexes := mutexes[m := mutexes[m].(free := true)];
        if mutexes[m].waiting != [] {
          assert mutexes[m].waiting[0] in mutexes[m].waiting;
          var higher := RemoveFromEventList(m);
          if higher {
            yielding := true;
          }
        } else if yieldRequired {
          yielding := true;
        }
      }
    }

    // xQueueGenericReceive on a mutex that is free, with pvTaskIncrementMutexHeldCount
    method GenericReceive(m: MutexId) returns (taken: bool)
      requires InRange(Abs()) && m < |mutexes|
      modifies this
      ensures taken <==> old(mutexes)[m].free
      ensures Abs() == if taken then Take(old(Abs()), m) else old(Abs())
    {
      taken := mutexes[m].free;
      if taken {
        mutexes := mutexes[m := mutexes[m].(free := false)];
        tasks := tasks[current := tasks[current].(held := tasks[current].held + 1, wants := None)];
        mutexes := mutexes[m := mutexes[m].(holder := Some(current), since := {})];
      }
    }

    // and on one that is not, when the caller is to wait
    method WaitToReceive(m: MutexId)
      requires InRange(Abs()) && m < |mutexes|
      modifies this
      ensures Abs() == WaitFor(old(Abs()), m)
    {
      assert MutexInRange(mutexes[m], |tasks|);
      PriorityInherit(mutexes[m].holder);
      var x := mutexes[m];
      var position := SearchPlace(x.waiting, tasks[current].item);
      mutexes := mutexes[m := x.(waiting := Paste(x.waiting, position, current), since := x.since + {current})];
      tasks := tasks[current := tasks[current].(place := Blocked(m), wants := None,
                                                blockedAt := tasks[current].priority)];
      yielding := true;
    }

    // the search of vListInsert
    method SearchPlace(waiting: seq<Task>, item: nat) returns (position: nat)
      ensures position == FirstLower(tasks, waiting, item)
    {
      position := 0;
      while position < |waiting|
            && (waiting[position] >= |tasks| || tasks[waiting[position]].item >= item)
        invariant position <= |waiting|
        invariant FirstLower(tasks, waiting, item) == position + FirstLower(tasks, waiting[position..], item)
      {
        position := position + 1;
      }
    }
  }

  // ---------------------------------------------------------------- what every step keeps

  // The number of mutexes that name t as their holder.
  function Holding(mutexes: seq<Mutex>, t: Task): nat {
    if mutexes == [] then 0 else (if mutexes[0].holder == Some(t) then 1 else 0) + Holding(mutexes[1..], t)
  }

  lemma {:induction false} HoldingUpdate(mutexes: seq<Mutex>, m: MutexId, x: Mutex, t: Task)
    requires m < |mutexes|
    ensures Holding(mutexes[m := x], t) + (if mutexes[m].holder == Some(t) then 1 else 0)
            == Holding(mutexes, t) + if x.holder == Some(t) then 1 else 0
  {
    if m > 0 {
      assert mutexes[m := x][1..] == mutexes[1..][m - 1 := x];
      HoldingUpdate(mutexes[1..], m - 1, x, t);
    }
  }

  lemma {:induction false} HoldingPositive(mutexes: seq<Mutex>, m: MutexId, t: Task)
    requires m < |mutexes| && mutexes[m].holder == Some(t)
    ensures Holding(mutexes, t) > 0
  {
    if m > 0 { HoldingPositive(mutexes[1..], m - 1, t); }
  }

  // A task's priority is its own or a lent one, and a ready task is in the list of its priority.
  predicate TcbOk(t: Tcb) {
    && t.base <= t.priority && (t.held == 0 ==> t.priority == t.base)
    && (t.place.Ready? ==> t.place.priority == t.priority)
    && (if t.inUse then t.place.Asleep? else t.item == t.priority)
  }

  // The lists of waiting tasks are in step with where the tasks are. Raising a waiting task does
  // not move it in the list, so the order is only this: nobody waits behind a task whose priority
  // is now below what his was when he began to wait.
  ghost predicate QueueOk(s: System, m: MutexId)
    requires InRange(s) && m < |s.mutexes|
  {
    var waiting := s.mutexes[m].waiting;
    && NoDup(waiting)
    && (forall i :: 0 <= i < |waiting| ==> s.tasks[waiting[i]].place == Blocked(m))
    && (forall i, j :: 0 <= i <= j < |waiting| ==> s.tasks[waiting[i]].priority >= s.tasks[waiting[j]].blockedAt)
  }

  // The holder has at least the priority of each task that began to wait while it held the mutex.
  ghost predicate TenureOk(s: System, m: MutexId)
    requires InRange(s) && m < |s.mutexes|
  {
    var x := s.mutexes[m];
    && (x.free <==> x.holder.None?)
    && (x.holder.Some? ==>
          forall i :: 0 <= i < |x.waiting| && x.waiting[i] in x.since ==>
            s.tasks[x.holder.value].priority >= s.tasks[x.waiting[i]].blockedAt)
  }

  // While a mutex with waiting tasks is free, the task that was woken for it is ready, still wants
  // it, and has at least the priority the waiting ones had.
  ghost predicate HeirOk(s: System, m: MutexId)
    requires InRange(s) && m < |s.mutexes|
  {
    var x := s.mutexes[m];
    x.free && x.waiting != [] ==>
      && x.heir.Some? && x.heir.value < |s.tasks|
      && s.tasks[x.heir.value].place.Ready? && s.tasks[x.heir.value].wants == Some(m)
      && (forall i :: 0 <= i < |x.waiting| ==> s.tasks[x.heir.value].priority >= s.tasks[x.waiting[i]].blockedAt)
  }

  ghost predicate TaskOk(s: System, t: Task)
    requires InRange(s) && t < |s.tasks|
  {
    && TcbOk(s.tasks[t]) && s.tasks[t].held == Holding(s.mutexes, t)
    && (s.tasks[t].place.Blocked? ==>
          s.tasks[t].place.mutex < |s.mutexes| && t in s.mutexes[s.tasks[t].place.mutex].waiting)
  }

  ghost predicate MutexOk(s: System, m: MutexId)
    requires InRange(s) && m < |s.mutexes|
  {
    QueueOk(s, m) && TenureOk(s, m) && HeirOk(s, m)
  }

  ghost predicate Inv(s: System) {
    && InRange(s)
    && (forall t :: 0 <= t < |s.tasks| ==> TaskOk(s, t))
    && (forall m :: 0 <= m < |s.mutexes| ==> MutexOk(s, m))
    && (!s.yielding ==> s.tasks[s.running].place.Ready?)
  }

  // What a step on mutex m may do to a task, as the other mutexes see it.
  predicate Gentle(a: Tcb, b: Tcb, m: MutexId) {
    && (a.place.Blocked? && a.place.mutex != m ==>
          b.place == a.place && b.blockedAt == a.blockedAt && b.priority >= a.priority)
    && (a.place.Ready? && a.wants.Some? && a.wants.value != m ==>
          b.place.Ready? && b.wants == a.wants && b.priority >= a.priority)
    && (b.held > 0 ==> b.priority >= a.priority)
  }

  lemma OtherMutex(s: System, s': System, m: MutexId, k: MutexId)
    requires InRange(s) && InRange(s') && k < |s.mutexes| && k < |s'.mutexes| && k != m
    requires MutexOk(s, k) && s'.mutexes[k] == s.mutexes[k] && |s'.tasks| == |s.tasks|
    requires forall t :: 0 <= t < |s.tasks| ==> Gentle(s.tasks[t], s'.tasks[t], m)
    requires s.mutexes[k].holder.Some? ==> s'.tasks[s.mutexes[k].holder.value].held > 0
    ensures MutexOk(s', k)
  {
    hide NoDup;
    var x := s.mutexes[k];
    forall i | 0 <= i < |x.waiting|
      ensures s'.tasks[x.waiting[i]].place == Blocked(k)
      ensures s'.tasks[x.waiting[i]].blockedAt == s.tasks[x.waiting[i]].blockedAt
      ensures s'.tasks[x.waiting[i]].priority >= s.tasks[x.waiting[i]].priority
    {
      assert Gentle(s.tasks[x.waiting[i]], s'.tasks[x.waiting[i]], m);
    }
    if x.holder.Some? { assert Gentle(s.tasks[x.holder.value], s'.tasks[x.holder.value], m); }
    if x.free && x.waiting != [] { assert Gentle(s.tasks[x.heir.value], s'.tasks[x.heir.value], m); }
  }

  // A mutex that is not touched, once the tasks are known to be in order.
  lemma OthersOk(s: System, s': System, m: MutexId)
    requires Inv(s) && InRange(s') && |s'.tasks| == |s.tasks| && |s'.mutexes| == |s.mutexes|
    requires forall k :: 0 <= k < |s.mutexes| && k != m ==> s'.mutexes[k] == s.mutexes[k]
    requires forall t :: 0 <= t < |s.tasks| ==> Gentle(s.tasks[t], s'.tasks[t], m) && TaskOk(s', t)
    ensures forall k :: 0 <= k < |s.mutexes| && k != m ==> MutexOk(s', k)
  {
    hide Gentle, MutexOk, TcbOk;
    forall k | 0 <= k < |s.mutexes| && k != m ensures MutexOk(s', k) {
      assert MutexOk(s, k);
      if s.mutexes[k].holder.Some? {
        HoldingPositive(s'.mutexes, k, s.mutexes[k].holder.value);
        assert MutexInRange(s.mutexes[k], |s.tasks|);
        assert TaskOk(s', s.mutexes[k].holder.value);
      }
      OtherMutex(s, s', m, k);
    }
  }

  lemma RunningIs(s: System)
    requires Inv(s) && !s.yielding
    ensures s.tasks[s.running].place == Ready(s.tasks[s.running].priority)
    ensures !s.tasks[s.running].inUse && s.tasks[s.running].item == s.tasks[s.running].priority
    ensures forall m :: 0 <= m < |s.mutexes| ==> s.running !in s.mutexes[m].waiting
  {
    hide NoDup;
    assert TaskOk(s, s.running);
    forall m | 0 <= m < |s.mutexes| ensures s.running !in s.mutexes[m].waiting {
      assert MutexOk(s, m);
    }
  }

  lemma TakeKeepsInv(s: System, m: MutexId)
    requires Inv(s) && Enabled(s, Try(m, true)) && s.mutexes[m].free
    ensures Inv(Take(s, m))
  {
    hide NoDup, Holding;
    var s' := Take(s, m);
    RunningIs(s);
    assert MutexOk(s, m) && MutexInRange(s.mutexes[m], |s.tasks|);
    forall t | 0 <= t < |s.tasks| ensures Gentle(s.tasks[t], s'.tasks[t], m) && TaskOk(s', t) {
      assert TaskOk(s, t);
      HoldingUpdate(s.mutexes, m, s'.mutexes[m], t);
    }
    OthersOk(s, s', m);
    assert QueueOk(s', m) by { SameQueue(s, s', m); }
  }

  // A list of waiting tasks none of whom is touched.
  lemma SameQueue(s: System, s': System, m: MutexId)
    requires InRange(s) && InRange(s') && m < |s.mutexes| && m < |s'.mutexes| && |s'.tasks| == |s.tasks|
    requires QueueOk(s, m) && s'.mutexes[m].waiting == s.mutexes[m].waiting
    requires forall t :: 0 <= t < |s.tasks| && s.tasks[t].place.Blocked? ==> s'.tasks[t] == s.tasks[t]
    ensures QueueOk(s', m)
  {
    hide NoDup;
    var w := s.mutexes[m].waiting;
    forall i | 0 <= i < |w| ensures s'.tasks[w[i]] == s.tasks[w[i]] {
      assert s.tasks[w[i]].place == Blocked(m);
    }
  }

  lemma InheritKeepsInv(s: System, h: Task, priority: nat)
    requires Inv(s) && h < |s.tasks| && s.tasks[h].held > 0
    ensures Inv(s.(tasks := Inherit(s.tasks, h, priority)))
  {
    hide NoDup, Holding;
    var s' := s.(tasks := Inherit(s.tasks, h, priority));
    forall t | 0 <= t < |s.tasks| ensures Gentle(s.tasks[t], s'.tasks[t], |s.mutexes|) && TaskOk(s', t) {
      assert TaskOk(s, t);
    }
    OthersOk(s, s', |s.mutexes|);
  }

  // Putting a task where vListInsert does keeps the order.
  lemma QueuedInOrder(s: System, s': System, m: MutexId, p: nat, r: Task)
    requires InRange(s) && InRange(s') && m < |s.mutexes| && m < |s'.mutexes| && QueueOk(s, m)
    requires p <= |s.mutexes[m].waiting| && s'.mutexes[m].waiting == Paste(s.mutexes[m].waiting, p, r)
    requires r < |s.tasks| == |s'.tasks| && r !in s.mutexes[m].waiting
    requires forall t :: 0 <= t < |s.tasks| && t != r ==> s'.tasks[t] == s.tasks[t]
    requires s'.tasks[r].place == Blocked(m) && s'.tasks[r].blockedAt == s'.tasks[r].priority
    requires forall i :: 0 <= i < p ==> s.tasks[s.mutexes[m].waiting[i]].priority >= s'.tasks[r].priority
    requires p < |s.mutexes[m].waiting| ==> s.tasks[s.mutexes[m].waiting[p]].priority < s'.tasks[r].priority
    ensures QueueOk(s', m)
  {
    var w, w' := s.mutexes[m].waiting, s'.mutexes[m].waiting;
    PasteFacts(w, p, r);
    hide NoDup;
    forall i | 0 <= i < |w'| ensures w'[i] == if i < p then w[i] else if i == p then r else w[i - 1] {}
    forall i, j | 0 <= i <= j < |w'| ensures s'.tasks[w'[i]].priority >= s'.tasks[w'[j]].blockedAt {
      if i == p && p < j { assert s.tasks[w[p]].priority >= s.tasks[w[j - 1]].blockedAt; }
    }
  }

  // The second half of WaitFor, after the holder has inherited.
  function Queued(s: System, m: MutexId): System
    requires InRange(s) && m < |s.mutexes|
  {
    var x := s.mutexes[m];
    var r := s.tasks[s.running];
    s.(tasks := s.tasks[s.running := r.(place := Blocked(m), wants := None, blockedAt := r.priority)],
       mutexes := s.mutexes[m := x.(waiting := Paste(x.waiting, FirstLower(s.tasks, x.waiting, r.item), s.running),
                                    since := x.since + {s.running})],
       yielding := true)
  }

  lemma QueuedKeepsInv(s: System, m: MutexId)
    requires Inv(s) && Enabled(s, Try(m, true)) && !s.mutexes[m].free
    requires s.mutexes[m].holder.Some? ==>
      s.tasks[s.mutexes[m].holder.value].priority >= s.tasks[s.running].priority
    ensures Inv(Queued(s, m))
  {
    hide NoDup, Holding;
    var s' := Queued(s, m);
    var x := s.mutexes[m];
    var p := FirstLower(s.tasks, x.waiting, s.tasks[s.running].item);
    RunningIs(s);
    assert MutexOk(s, m) && MutexInRange(x, |s.tasks|);
    QueuedRange(s, m);
    QueuedTasks(s, m);
    OthersOk(s, s', m);
    WaitingItems(s, m);
    QueuedInOrder(s, s', m, p, s.running);
    QueuedTenure(s, m);
  }

  lemma QueuedRange(s: System, m: MutexId)
    requires InRange(s) && m < |s.mutexes|
    ensures InRange(Queued(s, m))
  {
    assert MutexInRange(s.mutexes[m], |s.tasks|);
  }

  lemma QueuedTenure(s: System, m: MutexId)
    requires InRange(s) && m < |s.mutexes| && TenureOk(s, m) && !s.mutexes[m].free
    requires s.running !in s.mutexes[m].waiting
    requires s.mutexes[m].holder.Some? ==>
      s.tasks[s.mutexes[m].holder.value].priority >= s.tasks[s.running].priority
    ensures InRange(Queued(s, m)) && TenureOk(Queued(s, m), m)
  {
    QueuedRange(s, m);
    var x, x' := s.mutexes[m], Queued(s, m).mutexes[m];
    var p := FirstLower(s.tasks, x.waiting, s.tasks[s.running].item);
    assert MutexInRange(x, |s.tasks|);
    forall i | 0 <= i < |x'.waiting|
      ensures x'.waiting[i] == if i < p then x.waiting[i] else if i == p then s.running else x.waiting[i - 1]
    {}
  }

  // The value in a waiting task's event item stands for its priority.
  lemma WaitingItems(s: System, m: MutexId)
    requires Inv(s) && m < |s.mutexes|
    ensures forall i :: 0 <= i < |s.mutexes[m].waiting| ==>
      s.tasks[s.mutexes[m].waiting[i]].item == s.tasks[s.mutexes[m].waiting[i]].priority
  {
    hide NoDup, Holding;
    var w := s.mutexes[m].waiting;
    assert MutexInRange(s.mutexes[m], |s.tasks|) && MutexOk(s, m);
    forall i | 0 <= i < |w| ensures s.tasks[w[i]].item == s.tasks[w[i]].priority {
      assert TaskOk(s, w[i]);
    }
  }

  lemma QueuedTasks(s: System, m: MutexId)
    requires Inv(s) && Enabled(s, Try(m, true)) && !s.mutexes[m].free && InRange(Queued(s, m))
    ensures forall t :: 0 <= t < |s.tasks| ==>
      Gentle(s.tasks[t], Queued(s, m).tasks[t], m) && TaskOk(Queued(s, m), t)
  {
    hide Holding, QueueOk, HeirOk, TenureOk;
    var s' := Queued(s, m);
    var x := s.mutexes[m];
    var p := FirstLower(s.tasks, x.waiting, s.tasks[s.running].item);
    RunningIs(s);
    assert MutexInRange(x, |s.tasks|);
    InPaste(x.waiting, p, s.running);
    forall t | 0 <= t < |s.tasks| ensures Gentle(s.tasks[t], s'.tasks[t], m) && TaskOk(s', t) {
      assert TaskOk(s, t);
      HoldingUpdate(s.mutexes, m, s'.mutexes[m], t);
    }
  }

  lemma InPaste(w: seq<Task>, p: nat, r: Task)
    requires p <= |w|
    ensures r in Paste(w, p, r) && forall t :: t in w ==> t in Paste(w, p, r)
  {
    assert Paste(w, p, r)[p] == r;
    forall t | t in w ensures t in Paste(w, p, r) {
      var i :| 0 <= i < |w| && w[i] == t;
      assert Paste(w, p, r)[if i < p then i else i + 1] == t;
    }
  }

  lemma WaitKeepsInv(s: System, m: MutexId)
    requires Inv(s) && Enabled(s, Try(m, true)) && !s.mutexes[m].free
    ensures Inv(WaitFor(s, m))
  {
    hide NoDup, QueueOk, HeirOk, TcbOk;
    var x := s.mutexes[m];
    assert MutexOk(s, m) && MutexInRange(x, |s.tasks|);
    var h := x.holder.value;
    HoldingPositive(s.mutexes, m, h);
    assert TaskOk(s, h);
    var raised := s.(tasks := Inherit(s.tasks, h, s.tasks[s.running].priority));
    InheritKeepsInv(s, h, s.tasks[s.running].priority);
    QueuedKeepsInv(raised, m);
    assert WaitFor(s, m) == Queued(raised, m);
  }

  lemma TailOk(w: seq<Task>)
    requires w != [] && NoDup(w)
    ensures NoDup(w[1..]) && w[0] !in w[1..] && forall t :: t in w && t != w[0] ==> t in w[1..]
  {
  }

  lemma GiveRange(s: System, m: MutexId)
    requires InRange(s) && m < |s.mutexes| && s.tasks[s.running].held > 0
    ensures InRange(Give(s, m))
  {
    assert MutexInRange(s.mutexes[m], |s.tasks|);
  }

  lemma GiveTasks(s: System, m: MutexId)
    requires Inv(s) && Enabled(s, Return(m)) && InRange(Give(s, m))
    ensures forall t :: 0 <= t < |s.tasks| ==> Gentle(s.tasks[t], Give(s, m).tasks[t], m) && TaskOk(Give(s, m), t)
  {
    hide Holding, TenureOk, HeirOk, NoDup;
    var s' := Give(s, m);
    var x := s.mutexes[m];
    assert MutexInRange(x, |s.tasks|) && MutexOk(s, m);
    RunningIs(s);
    if x.waiting != [] { TailOk(x.waiting); }
    forall t | 0 <= t < |s.tasks| ensures Gentle(s.tasks[t], s'.tasks[t], m) && TaskOk(s', t) {
      assert TaskOk(s, t);
      HoldingUpdate(s.mutexes, m, s'.mutexes[m], t);
    }
  }

  lemma GiveMutex(s: System, m: MutexId)
    requires Inv(s) && Enabled(s, Return(m)) && InRange(Give(s, m))
    ensures MutexOk(Give(s, m), m)
  {
    hide Holding, TcbOk, NoDup;
    var s' := Give(s, m);
    var x := s.mutexes[m];
    assert MutexInRange(x, |s.tasks|) && MutexOk(s, m);
    RunningIs(s);
    if x.waiting != [] {
      TailOk(x.waiting);
      forall i | 0 <= i < |x.waiting[1..]| ensures s'.tasks[x.waiting[1..][i]] == s.tasks[x.waiting[i + 1]] {
        assert x.waiting[1..][i] in x.waiting[1..];
      }
    }
  }

  lemma GiveKeepsInv(s: System, m: MutexId)
    requires Inv(s) && Enabled(s, Return(m))
    ensures Inv(Give(s, m))
  {
    hide Holding, TcbOk, MutexOk;
    GiveRange(s, m);
    GiveTasks(s, m);
    GiveMutex(s, m);
    OthersOk(s, Give(s, m), m);
    RunningIs(s);
    assert TaskOk(s, s.running) && MutexInRange(s.mutexes[m], |s.tasks|);
    if s.mutexes[m].waiting != [] { assert s.mutexes[m].waiting[0] in s.mutexes[m].waiting; }
  }

  function TimedOut(s: System, t: Task): System
    requires Enabled(s, TimeOut(t))
  {
    Apply(s, TimeOut(t))
  }

  lemma TimedOutRange(s: System, t: Task)
    requires Enabled(s, TimeOut(t))
    ensures InRange(TimedOut(s, t))
  {
    assert MutexInRange(s.mutexes[s.tasks[t].place.mutex], |s.tasks|);
  }

  lemma TimedOutTasks(s: System, t: Task)
    requires Inv(s) && Enabled(s, TimeOut(t)) && InRange(TimedOut(s, t))
    ensures forall u :: 0 <= u < |s.tasks| ==>
      Gentle(s.tasks[u], TimedOut(s, t).tasks[u], s.tasks[t].place.mutex) && TaskOk(TimedOut(s, t), u)
  {
    hide Holding, TenureOk, HeirOk, NoDup;
    var s' := TimedOut(s, t);
    var m := s.tasks[t].place.mutex;
    var w := s.mutexes[m].waiting;
    assert MutexOk(s, m);
    CutFacts(w, Find(w, t));
    forall u | 0 <= u < |s.tasks| ensures Gentle(s.tasks[u], s'.tasks[u], m) && TaskOk(s', u) {
      assert TaskOk(s, u);
      HoldingUpdate(s.mutexes, m, s'.mutexes[m], u);
    }
  }

  // Of the tasks that wait, only the one that leaves is touched.
  lemma TimedOutWaiting(s: System, t: Task)
    requires Inv(s) && Enabled(s, TimeOut(t)) && InRange(TimedOut(s, t))
    ensures
      var m := s.tasks[t].place.mutex;
      var w, w', p := s.mutexes[m].waiting, TimedOut(s, t).mutexes[m].waiting, Find(s.mutexes[m].waiting, t);
      && NoDup(w') && |w'| == |w| - 1
      && (forall i :: 0 <= i < |w'| ==>
            && w'[i] == w[if i < p then i else i + 1]
            && TimedOut(s, t).tasks[w'[i]] == s.tasks[w'[i]])
  {
    hide Holding, TaskOk, NoDup, TenureOk, HeirOk;
    var m := s.tasks[t].place.mutex;
    assert MutexOk(s, m);
    CutOut(s.mutexes[m].waiting, t);
    hide Find, Cut;
  }

  lemma CutOut(w: seq<Task>, t: Task)
    requires NoDup(w) && t in w
    ensures NoDup(Cut(w, Find(w, t))) && |Cut(w, Find(w, t))| == |w| - 1
    ensures forall i :: 0 <= i < |w| - 1 ==>
      Cut(w, Find(w, t))[i] == w[if i < Find(w, t) then i else i + 1] && Cut(w, Find(w, t))[i] != t
  {
    CutFacts(w, Find(w, t));
    forall i | 0 <= i < |w| - 1 ensures Cut(w, Find(w, t))[i] != t {
      assert Cut(w, Find(w, t))[i] in Cut(w, Find(w, t));
    }
  }

  lemma TimedOutMutex(s: System, t: Task)
    requires Inv(s) && Enabled(s, TimeOut(t)) && InRange(TimedOut(s, t))
    ensures MutexOk(TimedOut(s, t), s.tasks[t].place.mutex)
  {
    hide Holding, TcbOk, NoDup, Cut;
    var m := s.tasks[t].place.mutex;
    assert MutexInRange(s.mutexes[m], |s.tasks|) && MutexOk(s, m);
    TimedOutWaiting(s, t);
    if s.mutexes[m].holder.Some? {
      var h := s.mutexes[m].holder.value;
      assert TimedOut(s, t).tasks[h].priority == s.tasks[h].priority;
    }
  }

  lemma TimeOutKeepsInv(s: System, t: Task)
    requires Inv(s) && Enabled(s, TimeOut(t))
    ensures Inv(TimedOut(s, t))
  {
    hide Holding, TcbOk, MutexOk;
    TimedOutRange(s, t);
    TimedOutTasks(s, t);
    TimedOutMutex(s, t);
    OthersOk(s, TimedOut(s, t), s.tasks[t].place.mutex);
  }

  // The steps that change no mutex: giving up, sleeping, waking and switching.
  lemma QuietKeepsInv(s: System, step: Step)
    requires Inv(s) && Enabled(s, step) && (step.Sleep? || step.Wake? || step.Switch?)
    ensures Inv(Apply(s, step))
  {
    hide Holding, MutexOk;
    var s' := Apply(s, step);
    if !step.Switch? {
      if step.Sleep? { RunningIs(s); }
      forall t | 0 <= t < |s.tasks| ensures Gentle(s.tasks[t], s'.tasks[t], |s.mutexes|) && TaskOk(s', t) {
        assert TaskOk(s, t);
      }
      OthersOk(s, s', |s.mutexes|);
    } else {
      SwitchKeepsInv(s, s');
    }
  }

  lemma SwitchKeepsInv(s: System, s': System)
    requires Inv(s) && s' == s.(running := s'.running, yielding := false)
    requires s'.running < |s.tasks| && s.tasks[s'.running].place.Ready?
    ensures Inv(s')
  {
    hide NoDup, Holding;
    forall t | 0 <= t < |s.tasks| ensures TaskOk(s', t) { assert TaskOk(s, t); }
    forall m | 0 <= m < |s.mutexes| ensures MutexOk(s', m) {
      assert MutexOk(s, m);
      SameQueue(s, s', m);
    }
  }

  lemma GiveUpKeepsInv(s: System, m: MutexId)
    requires Inv(s) && Enabled(s, Try(m, false)) && !s.mutexes[m].free
    ensures Inv(Apply(s, Try(m, false)))
  {
    hide Holding, NoDup;
    var s' := Apply(s, Try(m, false));
    RunningIs(s);
    forall t | 0 <= t < |s.tasks| ensures Gentle(s.tasks[t], s'.tasks[t], m) && TaskOk(s', t) {
      assert TaskOk(s, t);
    }
    OthersOk(s, s', m);
    assert MutexOk(s, m) && MutexInRange(s.mutexes[m], |s.tasks|);
    SameQueue(s, s', m);
  }

  lemma StepKeepsInv(s: System, step: Step)
    requires Inv(s) && Enabled(s, step)
    ensures Inv(Apply(s, step))
  {
    hide Inv, Take, WaitFor, Give;
    match step
    case Try(m, block) =>
      if s.mutexes[m].free { TakeKeepsInv(s, m); }
      else if block { WaitKeepsInv(s, m); }
      else { GiveUpKeepsInv(s, m); }
    case Return(m) => GiveKeepsInv(s, m);
    case TimeOut(t) => TimeOutKeepsInv(s, t);
    case _ => QuietKeepsInv(s, step);
  }

  // ---------------------------------------------------------------- runs

  // Nobody holds or wants a mutex, and the running task is ready and none is above it.
  predicate Initial(s: System) {
    && InRange(s) && !s.yielding && Highest(s, s.running)
    && (forall t :: 0 <= t < |s.tasks| ==>
          var u := s.tasks[t];
          u.held == 0 && u.priority == u.base == u.item && !u.inUse && u.wants.None?
          && (u.place == Ready(u.base) || u.place == Asleep))
    && (forall m :: 0 <= m < |s.mutexes| ==> s.mutexes[m] == Mutex(true, None, [], {}, None))
  }

  lemma {:induction false} NoneHeld(mutexes: seq<Mutex>, t: Task)
    requires forall m :: 0 <= m < |mutexes| ==> mutexes[m].holder.None?
    ensures Holding(mutexes, t) == 0
  {
    if mutexes != [] { NoneHeld(mutexes[1..], t); }
  }

  lemma InitialInv(s: System)
    requires Initial(s)
    ensures Inv(s)
  {
    forall t | 0 <= t < |s.tasks| ensures TaskOk(s, t) { NoneHeld(s.mutexes, t); }
  }

  predicate Legal(s: System, steps: seq<Step>)
    decreases |steps|
  {
    steps == [] || (Enabled(s, steps[0]) && Legal(Apply(s, steps[0]), steps[1..]))
  }

  function RunAll(s: System, steps: seq<Step>): System
    requires Legal(s, steps)
    decreases |steps|
  {
    if steps == [] then s else RunAll(Apply(s, steps[0]), steps[1..])
  }

  lemma {:induction false} RunKeepsInv(s: System, steps: seq<Step>)
    requires Inv(s) && Legal(s, steps)
    ensures Inv(RunAll(s, steps))
    decreases |steps|
  {
    hide Inv, Apply, Enabled;
    if steps != [] {
      StepKeepsInv(s, steps[0]);
      RunKeepsInv(Apply(s, steps[0]), steps[1..]);
    }
  }

  // After any run: a task counts as many mutexes as name it, has its base priority when that is
  // none and never less, and is ready in the list of its priority; and the holder of a mutex has
  // at least the priority each task had that began to wait while it held the mutex.
  lemma PriorityInheritance(s: System, steps: seq<Step>)
    requires Initial(s) && Legal(s, steps)
    ensures
      var end := RunAll(s, steps);
      && (forall t :: 0 <= t < |end.tasks| ==>
            var u := end.tasks[t];
            && u.held == Holding(end.mutexes, t) && u.base <= u.priority && (u.held == 0 ==> u.priority == u.base)
            && (u.place.Ready? ==> u.place.priority == u.priority))
      && (forall m, i :: 0 <= m < |end.mutexes| && 0 <= i < |end.mutexes[m].waiting| ==>
            var x := end.mutexes[m];
            x.holder.Some? && x.waiting[i] in x.since && x.holder.value < |end.tasks| && x.waiting[i] < |end.tasks| ==>
              end.tasks[x.holder.value].priority >= end.tasks[x.waiting[i]].blockedAt)
  {
    hide Holding, RunAll, Legal, Initial, HeirOk, QueueOk;
    InitialInv(s);
    RunKeepsInv(s, steps);
    var end := RunAll(s, steps);
    forall t | 0 <= t < |end.tasks|
      ensures end.tasks[t].held == Holding(end.mutexes, t) && TcbOk(end.tasks[t])
    {
      assert TaskOk(end, t);
    }
    forall m, i | 0 <= m < |end.mutexes| && 0 <= i < |end.mutexes[m].waiting|
      ensures
        var x := end.mutexes[m];
        x.holder.Some? && x.waiting[i] in x.since && x.holder.value < |end.tasks| && x.waiting[i] < |end.tasks| ==>
          end.tasks[x.holder.value].priority >= end.tasks[x.waiting[i]].blockedAt
    {
      assert MutexOk(end, m);
    }
  }

  // ---------------------------------------------------------------- what each call does

  // All tasks but those named are as they were.
  predicate OnlyTasks(s: System, r: System, a: Task, b: Task) {
    && |r.tasks| == |s.tasks| && |r.mutexes| == |s.mutexes|
    && forall t :: 0 <= t < |s.tasks| && t != a && t != b ==> r.tasks[t] == s.tasks[t]
  }

  predicate OnlyMutex(s: System, r: System, m: MutexId) {
    |r.mutexes| == |s.mutexes| && forall k :: 0 <= k < |s.mutexes| && k != m ==> r.mutexes[k] == s.mutexes[k]
  }

  // Taking a free mutex: it names the caller, who counts one more and keeps its priority.
  lemma TakeMeans(s: System, m: MutexId, block: bool)
    requires Inv(s) && Enabled(s, Try(m, block)) && s.mutexes[m].free
    ensures
      var r, t := Apply(s, Try(m, block)), s.running;
      && OnlyTasks(s, r, t, t) && OnlyMutex(s, r, m) && r.running == t && r.yielding == s.yielding
      && r.tasks[t] == s.tasks[t].(held := s.tasks[t].held + 1, wants := None)
      && r.mutexes[m].holder == Some(t) && !r.mutexes[m].free && r.mutexes[m].waiting == s.mutexes[m].waiting
  {
  }

  // The caller of a taken mutex who does not wait changes nothing but that it has given up.
  lemma GiveUpMeans(s: System, m: MutexId)
    requires Enabled(s, Try(m, false)) && !s.mutexes[m].free
    ensures
      var r, t := Apply(s, Try(m, false)), s.running;
      OnlyTasks(s, r, t, t) && r == s.(tasks := r.tasks) && r.tasks[t] == s.tasks[t].(wants := None)
  {
  }

  // One who waits lends its priority: the holder has the greater of the two, in the ready list of it if
  // it is ready. The caller joins the waiting tasks before the first below it, and a switch is asked for.
  lemma WaitMeans(s: System, m: MutexId) returns (p: nat)
    requires Inv(s) && Enabled(s, Try(m, true)) && !s.mutexes[m].free
    ensures
      var r, t, x := Apply(s, Try(m, true)), s.running, s.mutexes[m];
      && x.holder.Some? && x.holder.value < |s.tasks|
      && var h := x.holder.value;
         && OnlyTasks(s, r, t, h) && OnlyMutex(s, r, m) && r.running == t && r.yielding
         && r.mutexes[m].holder == x.holder && !r.mutexes[m].free
         && r.tasks[t].place == Blocked(m) && r.tasks[t].base == s.tasks[t].base && r.tasks[t].held == s.tasks[t].held
         && (h != t ==>
               && r.tasks[t].priority == s.tasks[t].priority == r.tasks[t].blockedAt
               && r.tasks[h].priority == Greater(s.tasks[h].priority, s.tasks[t].priority)
               && r.tasks[h].base == s.tasks[h].base && r.tasks[h].held == s.tasks[h].held
               && (s.tasks[h].place.Ready? ==> r.tasks[h].place == Ready(r.tasks[h].priority))
               && (!s.tasks[h].place.Ready? ==> r.tasks[h].place == s.tasks[h].place))
         && (h == t ==> r.tasks[t].priority == s.tasks[t].priority)
         && p <= |x.waiting| && r.mutexes[m].waiting == Paste(x.waiting, p, t)
    ensures
      var x := s.mutexes[m];
      && (forall i :: 0 <= i < |x.waiting| ==> x.waiting[i] < |s.tasks|)
      && (forall i :: 0 <= i < p ==>
            Apply(s, Try(m, true)).tasks[x.waiting[i]].priority >= s.tasks[s.running].priority)
      && (p < |x.waiting| ==>
            Apply(s, Try(m, true)).tasks[x.waiting[p]].priority < s.tasks[s.running].priority)
  {
    hide NoDup, Holding, QueueOk, HeirOk;
    var x := s.mutexes[m];
    assert MutexOk(s, m) && MutexInRange(x, |s.tasks|);
    RunningIs(s);
    var h := x.holder.value;
    HoldingPositive(s.mutexes, m, h);
    assert TaskOk(s, h) && TaskOk(s, s.running);
    var raised := s.(tasks := Inherit(s.tasks, h, s.tasks[s.running].priority));
    InheritKeepsInv(s, h, s.tasks[s.running].priority);
    WaitingItems(raised, m);
    p := FirstLower(raised.tasks, x.waiting, raised.tasks[s.running].item);
    forall i | 0 <= i < |x.waiting| ensures Apply(s, Try(m, true)).tasks[x.waiting[i]] == raised.tasks[x.waiting[i]] {
      assert x.waiting[i] in x.waiting;
    }
  }

  function Greater(a: nat, b: nat): nat { if a < b then b else a }

  // Giving a mutex back: the giver counts one less and, with the last, has its own priority again. The
  // first waiting task is ready to try again, the others wait on, and no other task changes.
  lemma ReturnMeans(s: System, m: MutexId)
    requires Inv(s) && Enabled(s, Return(m))
    ensures
      var r, t, x := Apply(s, Return(m)), s.running, s.mutexes[m];
      && (x.waiting != [] ==> x.waiting[0] < |s.tasks| && x.waiting[0] != t)
      && var w := if x.waiting == [] then t else x.waiting[0];
         && OnlyTasks(s, r, t, w) && OnlyMutex(s, r, m) && r.running == t
         && r.mutexes[m].free && r.mutexes[m].holder == None
         && r.tasks[t].held == s.tasks[t].held - 1 && r.tasks[t].base == s.tasks[t].base
         && r.tasks[t].priority == (if r.tasks[t].held == 0 then s.tasks[t].base else s.tasks[t].priority)
         && r.tasks[t].place == Ready(r.tasks[t].priority)
         && (x.waiting == [] ==> r.mutexes[m].waiting == [])
         && (x.waiting != [] ==>
               && r.mutexes[m].waiting == x.waiting[1..]
               && r.tasks[w] == s.tasks[w].(place := Ready(s.tasks[w].priority), wants := Some(m)))
  {
    hide NoDup, Holding, TenureOk, HeirOk;
    var x := s.mutexes[m];
    assert MutexOk(s, m) && MutexInRange(x, |s.tasks|);
    RunningIs(s);
    assert TaskOk(s, s.running);
    if x.waiting != [] { HeadWaits(s, m); }
  }

  // When a switch is asked for at that: with nobody waiting if a lent priority is given back, and else if
  // the task woken is above what the giver is left with.
  lemma ReturnAsks(s: System, m: MutexId)
    requires Inv(s) && Enabled(s, Return(m))
    ensures
      var r, t, x := Apply(s, Return(m)), s.running, s.mutexes[m];
      && |r.tasks| == |s.tasks|
      && (x.waiting == [] ==> (r.yielding <==> r.tasks[t].priority != s.tasks[t].priority))
      && (x.waiting != [] && x.waiting[0] < |s.tasks| ==>
            (r.yielding <==> r.tasks[x.waiting[0]].priority > r.tasks[t].priority))
  {
    hide NoDup, Holding, TenureOk, HeirOk;
    assert MutexOk(s, m) && MutexInRange(s.mutexes[m], |s.tasks|);
    RunningIs(s);
    assert TaskOk(s, s.running);
    if s.mutexes[m].waiting != [] { HeadWaits(s, m); }
  }

  // A task whose wait ends by the tick is ready at its own priority and off the list. The holder keeps
  // what it was lent.
  lemma TimeOutMeans(s: System, t: Task)
    requires Inv(s) && Enabled(s, TimeOut(t))
    ensures
      var r, m := Apply(s, TimeOut(t)), s.tasks[t].place.mutex;
      && OnlyTasks(s, r, t, t) && OnlyMutex(s, r, m) && r.running == s.running
      && r.tasks[t] == s.tasks[t].(place := Ready(s.tasks[t].priority), wants := Some(m))
      && r.mutexes[m] == s.mutexes[m].(waiting := r.mutexes[m].waiting)
      && (forall u :: u in r.mutexes[m].waiting <==> u in s.mutexes[m].waiting && u != t)
      && (r.yielding <==> s.yielding || s.tasks[t].priority >= s.tasks[s.running].priority)
  {
    hide Holding, TenureOk, HeirOk, TaskOk;
    var m := s.tasks[t].place.mutex;
    assert MutexOk(s, m);
    var l, p := s.mutexes[m].waiting, Find(s.mutexes[m].waiting, t);
    assert NoDup(l) && l == l[..p] + [t] + l[p + 1..];
  }

  // A task that waits for something else keeps its priority and all it holds; when that has come it is
  // ready at the priority it then has, and its event item follows.
  lemma SleepMeans(s: System, inUse: bool)
    requires Enabled(s, Sleep(inUse))
    ensures
      var r, t := Apply(s, Sleep(inUse)), s.running;
      && OnlyTasks(s, r, t, t) && r == s.(tasks := r.tasks, yielding := true)
      && r.tasks[t] == s.tasks[t].(place := Asleep, inUse := r.tasks[t].inUse) && (r.tasks[t].inUse <==> inUse)
  {
  }

  lemma WakeMeans(s: System, t: Task, urgent: bool)
    requires Enabled(s, Wake(t, urgent))
    ensures
      var r := Apply(s, Wake(t, urgent));
      && OnlyTasks(s, r, t, t) && r == s.(tasks := r.tasks, yielding := s.yielding || urgent)
      && r.tasks[t].place == Ready(r.tasks[t].priority) && !r.tasks[t].inUse
      && r.tasks[t].priority == r.tasks[t].item == s.tasks[t].priority
      && r.tasks[t].held == s.tasks[t].held && r.tasks[t].base == s.tasks[t].base
  {
  }

  // Whose event item changes, by which a list of waiting tasks is ordered: a holder's that is lent a
  // priority, unless it is in use for something else, a giver's that goes back to its own, and that of a
  // task that wakes.
  lemma ItemsMean(s: System, step: Step, u: Task)
    requires Inv(s) && Enabled(s, step) && u < |s.tasks|
    ensures
      var r, t := Apply(s, step), s.running;
      && |r.tasks| == |s.tasks|
      && r.tasks[u].item ==
           if Lends(s, step, u) && !s.tasks[u].inUse then s.tasks[t].priority
           else if step.Return? && u == t && r.tasks[u].priority != s.tasks[u].priority then s.tasks[u].base
           else if step.Wake? && u == step.t then s.tasks[u].priority
           else s.tasks[u].item
  {
    hide Holding, MutexOk, NoDup;
    if step.Return? && s.mutexes[step.m].waiting != [] {
      assert MutexInRange(s.mutexes[step.m], |s.tasks|);
      HeadWaits(s, step.m);
    }
    if step.Try? { assert MutexInRange(s.mutexes[step.m], |s.tasks|); }
  }

  // The running task begins to wait for a mutex that u holds, and is above it.
  predicate Lends(s: System, step: Step, u: Task)
    requires Enabled(s, step) && u < |s.tasks|
  {
    && step.Try? && step.block && !s.mutexes[step.m].free && s.mutexes[step.m].holder == Some(u)
    && s.tasks[u].priority < s.tasks[s.running].priority
  }

  // ---------------------------------------------------------------- priorities are lent

  // Every priority is the base priority of some task.
  ghost predicate PrioritiesAreBases(s: System) {
    forall t :: 0 <= t < |s.tasks| ==> SomeBase(s, s.tasks[t].priority)
  }

  ghost predicate SomeBase(s: System, p: nat) {
    exists u :: 0 <= u < |s.tasks| && s.tasks[u].base == p
  }

  // No step changes a base priority, and a new priority is the task's own or the running one's.
  lemma StepLends(s: System, step: Step, t: Task)
    requires Inv(s) && Enabled(s, step) && t < |s.tasks|
    ensures
      var r := Apply(s, step);
      && |r.tasks| == |s.tasks| && r.tasks[t].base == s.tasks[t].base
      && (|| r.tasks[t].priority == s.tasks[t].priority || r.tasks[t].priority == s.tasks[t].base
          || r.tasks[t].priority == s.tasks[s.running].priority)
  {
    hide Holding, MutexOk, NoDup;
    if step.Return? && s.mutexes[step.m].waiting != [] {
      assert MutexInRange(s.mutexes[step.m], |s.tasks|);
      HeadWaits(s, step.m);
    }
    if step.Try? { assert MutexInRange(s.mutexes[step.m], |s.tasks|); }
  }

  lemma StepKeepsBases(s: System, step: Step)
    requires Inv(s) && Enabled(s, step) && PrioritiesAreBases(s)
    ensures PrioritiesAreBases(Apply(s, step))
  {
    hide Inv, Apply, Enabled;
    RunningInRange(s);
    var r := Apply(s, step);
    StepLends(s, step, s.running);
    forall t | 0 <= t < |r.tasks| ensures SomeBase(r, r.tasks[t].priority) {
      StepLends(s, step, t);
      assert SomeBase(s, s.tasks[t].priority) && SomeBase(s, s.tasks[s.running].priority);
      if u :| 0 <= u < |s.tasks| && s.tasks[u].base == r.tasks[t].priority { StepLends(s, step, u); }
    }
  }

  lemma RunningInRange(s: System)
    requires Inv(s)
    ensures s.running < |s.tasks|
  {
    hide Holding, MutexOk, NoDup;
  }

  lemma {:induction false} RunKeepsBases(s: System, steps: seq<Step>)
    requires Inv(s) && PrioritiesAreBases(s) && Legal(s, steps)
    ensures PrioritiesAreBases(RunAll(s, steps))
    decreases |steps|
  {
    hide Inv, Apply, Enabled, PrioritiesAreBases;
    if steps != [] {
      StepKeepsInv(s, steps[0]);
      StepKeepsBases(s, steps[0]);
      RunKeepsBases(Apply(s, steps[0]), steps[1..]);
    }
  }

  // After any run no task has a priority that no task has by itself.
  lemma NothingIsMadeUp(s: System, steps: seq<Step>)
    requires Initial(s) && Legal(s, steps)
    ensures PrioritiesAreBases(RunAll(s, steps))
  {
    hide Legal, RunAll;
    InitialInv(s);
    forall t | 0 <= t < |s.tasks| ensures SomeBase(s, s.tasks[t].priority) {
      assert s.tasks[t].base == s.tasks[t].priority;
    }
    hide Inv, Initial;
    RunKeepsBases(s, steps);
  }

  // ---------------------------------------------------------------- all the waiting tasks

  // The holder has at least the priority of every waiting task, whenever that began to wait.
  ghost predicate CoveredMutex(s: System, m: MutexId)
    requires InRange(s) && m < |s.mutexes|
  {
    var x := s.mutexes[m];
    x.holder.Some? ==>
      forall i :: 0 <= i < |x.waiting| && x.waiting[i] < |s.tasks| && x.holder.value < |s.tasks| ==>
        s.tasks[x.holder.value].priority >= s.tasks[x.waiting[i]].blockedAt
  }

  ghost predicate Covered(s: System) {
    InRange(s) && forall m :: 0 <= m < |s.mutexes| ==> CoveredMutex(s, m)
  }

  predicate Top(s: System) { InRange(s) && (!s.yielding ==> Highest(s, s.running)) }

  // The running task gives back its last mutex and with it a lent priority, somebody waits, and the
  // one woken is not above the priority that is left: no switch is asked for, though others may be
  // above it now.
  predicate Lapses(s: System, step: Step) {
    && step.Return? && Enabled(s, step) && Disinherits(s.tasks[s.running])
    && s.mutexes[step.m].waiting != [] && !Give(s, step.m).yielding
  }

  lemma StepKeepsTop(s: System, step: Step)
    requires Inv(s) && Top(s) && Enabled(s, step) && !Lapses(s, step)
    ensures Top(Apply(s, step))
  {
    hide QueueOk, TenureOk, HeirOk, Holding;
    StepKeepsInv(s, step);
    var s' := Apply(s, step);
    if !s'.yielding && !step.Switch? {
      forall u | 0 <= u < |s.tasks| && s'.tasks[u].place.Ready?
        ensures s'.tasks[u].place.priority <= s'.tasks[s.running].place.priority
      {
        assert TaskOk(s, u) && TaskOk(s', u) && TaskOk(s, s.running) && TaskOk(s', s.running);
      }
    }
  }

  function Target(s: System, step: Step): MutexId {
    match step
    case Try(m, _) => m
    case Return(m) => m
    case TimeOut(t) => if t < |s.tasks| && s.tasks[t].place.Blocked? then s.tasks[t].place.mutex else |s.mutexes|
    case _ => |s.mutexes|
  }

  lemma StepIsGentle(s: System, step: Step, t: Task)
    requires Inv(s) && Enabled(s, step) && t < |s.tasks|
    ensures |Apply(s, step).tasks| == |s.tasks|
    ensures Gentle(s.tasks[t], Apply(s, step).tasks[t], Target(s, step))
  {
    hide Holding, MutexOk;
    assert TaskOk(s, t);
    if !s.yielding { RunningIs(s); }
    if step.Return? && s.mutexes[step.m].waiting != [] {
      assert MutexInRange(s.mutexes[step.m], |s.tasks|);
      HeadWaits(s, step.m);
    }
    if step.Try? { assert MutexInRange(s.mutexes[step.m], |s.tasks|); }
  }

  lemma HeadWaits(s: System, m: MutexId)
    requires Inv(s) && m < |s.mutexes| && s.mutexes[m].waiting != []
    ensures s.mutexes[m].waiting[0] < |s.tasks| && s.tasks[s.mutexes[m].waiting[0]].place == Blocked(m)
  {
    assert MutexInRange(s.mutexes[m], |s.tasks|) && MutexOk(s, m);
  }

  lemma OtherCovered(s: System, step: Step, k: MutexId)
    requires Inv(s) && Enabled(s, step) && Inv(Apply(s, step)) && k < |s.mutexes| && k != Target(s, step)
    requires CoveredMutex(s, k)
    ensures k < |Apply(s, step).mutexes| && CoveredMutex(Apply(s, step), k)
  {
    hide Holding, Gentle, TcbOk, NoDup;
    var s' := Apply(s, step);
    var x := s.mutexes[k];
    assert s'.mutexes[k] == x;
    assert MutexInRange(x, |s.tasks|) && MutexOk(s, k);
    if x.holder.Some? {
      HoldingPositive(s'.mutexes, k, x.holder.value);
      assert TaskOk(s', x.holder.value);
      StepIsGentle(s, step, x.holder.value);
      hide Apply;
      forall i | 0 <= i < |x.waiting|
        ensures s'.tasks[x.holder.value].priority >= s'.tasks[x.waiting[i]].blockedAt
      {
        StepIsGentle(s, step, x.waiting[i]);
        GentleParts(s.tasks[x.waiting[i]], s'.tasks[x.waiting[i]], Target(s, step));
        GentleParts(s.tasks[x.holder.value], s'.tasks[x.holder.value], Target(s, step));
      }
    }
  }

  lemma GentleParts(a: Tcb, b: Tcb, m: MutexId)
    requires Gentle(a, b, m)
    ensures a.place.Blocked? && a.place.mutex != m ==> b.blockedAt == a.blockedAt
    ensures b.held > 0 ==> b.priority >= a.priority
  {
  }

  predicate WaitsAbove(s: System, t: Task)
    requires InRange(s)
  {
    t < |s.tasks| && s.tasks[t].blockedAt > s.tasks[s.running].priority
  }

  // The running task takes a free mutex for which a task waits that had a higher priority when it
  // began to.
  predicate Undercuts(s: System, step: Step)
    requires Enabled(s, step)
  {
    && step.Try? && s.mutexes[step.m].free
    && (exists i :: 0 <= i < |s.mutexes[step.m].waiting| && WaitsAbove(s, s.mutexes[step.m].waiting[i]))
  }

  // Who takes a free mutex covers all that wait for it exactly when he has at least the priority
  // of each; the highest ready task has, because of the task that was woken for it.
  lemma TakeCovers(s: System, m: MutexId)
    requires Inv(s) && Enabled(s, Try(m, true)) && s.mutexes[m].free && InRange(Take(s, m))
    ensures CoveredMutex(Take(s, m), m) <==> !Undercuts(s, Try(m, true))
    ensures Highest(s, s.running) ==> CoveredMutex(Take(s, m), m)
  {
    hide Holding, NoDup;
    var s' := Take(s, m);
    var w := s.mutexes[m].waiting;
    RunningIs(s);
    assert MutexInRange(s.mutexes[m], |s.tasks|) && MutexOk(s, m);
    forall i | 0 <= i < |w|
      ensures s'.tasks[w[i]] == s.tasks[w[i]] && s'.tasks[s.running].priority == s.tasks[s.running].priority
    {
      assert w[i] in w;
    }
    if w != [] {
      assert TaskOk(s, s.mutexes[m].heir.value);
    }
  }

  lemma WaitCovers(s: System, m: MutexId)
    requires Inv(s) && Enabled(s, Try(m, true)) && !s.mutexes[m].free && CoveredMutex(s, m) && InRange(WaitFor(s, m))
    ensures CoveredMutex(WaitFor(s, m), m)
  {
    hide Holding, NoDup, TcbOk;
    var s' := WaitFor(s, m);
    var x := s.mutexes[m];
    RunningIs(s);
    assert MutexInRange(x, |s.tasks|) && MutexOk(s, m);
    var raised := Inherit(s.tasks, x.holder.value, s.tasks[s.running].priority);
    var p := FirstLower(raised, x.waiting, raised[s.running].item);
    forall i | 0 <= i < |s'.mutexes[m].waiting|
      ensures s'.tasks[x.holder.value].priority >= s'.tasks[s'.mutexes[m].waiting[i]].blockedAt
    {
      assert s'.mutexes[m].waiting[i] == if i < p then x.waiting[i] else if i == p then s.running else x.waiting[i - 1];
    }
  }

  lemma LeavingCovers(s: System, t: Task)
    requires Inv(s) && Enabled(s, TimeOut(t)) && CoveredMutex(s, s.tasks[t].place.mutex) && InRange(TimedOut(s, t))
    ensures CoveredMutex(TimedOut(s, t), s.tasks[t].place.mutex)
  {
    hide Holding, NoDup, TcbOk;
    var s' := TimedOut(s, t);
    var m := s.tasks[t].place.mutex;
    var w := s.mutexes[m].waiting;
    var p := Find(w, t);
    assert MutexInRange(s.mutexes[m], |s.tasks|) && MutexOk(s, m);
    forall i | 0 <= i < |Cut(w, p)|
      ensures s'.tasks[Cut(w, p)[i]].blockedAt == s.tasks[w[if i < p then i else i + 1]].blockedAt
    {
      assert Cut(w, p)[i] == w[if i < p then i else i + 1];
    }
  }

  lemma GivingUpCovers(s: System, m: MutexId)
    requires Inv(s) && Enabled(s, Try(m, false)) && !s.mutexes[m].free && CoveredMutex(s, m)
    requires InRange(Apply(s, Try(m, false)))
    ensures CoveredMutex(Apply(s, Try(m, false)), m)
  {
    hide Holding, NoDup, TcbOk;
    assert MutexInRange(s.mutexes[m], |s.tasks|);
  }

  lemma TargetCovered(s: System, step: Step)
    requires Inv(s) && Covered(s) && Enabled(s, step) && Inv(Apply(s, step))
    requires Target(s, step) < |s.mutexes|
    ensures CoveredMutex(Apply(s, step), Target(s, step)) <==> !Undercuts(s, step)
  {
    hide Inherit, Holding, TcbOk, MutexOk, CoveredMutex, Take, WaitFor, Highest;
    assert CoveredMutex(s, Target(s, step));
    match step
    case Try(m, block) =>
      if s.mutexes[m].free { TakeCovers(s, m); }
      else if block { WaitCovers(s, m); }
      else { GivingUpCovers(s, m); }
    case Return(m) => GivenIsCovered(s, m);
    case TimeOut(t) => LeavingCovers(s, t);
    case _ =>
  }

  lemma GivenIsCovered(s: System, m: MutexId)
    requires Enabled(s, Return(m)) && InRange(Give(s, m))
    ensures CoveredMutex(Give(s, m), m)
  {
  }

  // No step but such a taking uncovers a waiting task, and each such taking does.
  lemma StepKeepsCovered(s: System, step: Step)
    requires Inv(s) && Covered(s) && Enabled(s, step)
    ensures Covered(Apply(s, step)) <==> !Undercuts(s, step)
  {
    hide Holding, TcbOk, MutexOk, CoveredMutex, Undercuts;
    StepKeepsInv(s, step);
    var s' := Apply(s, step);
    if Target(s, step) < |s.mutexes| { TargetCovered(s, step); } else { OnlyTakingUndercuts(s, step); }
    forall k | 0 <= k < |s'.mutexes| && k != Target(s, step) ensures CoveredMutex(s', k) {
      assert CoveredMutex(s, k);
      OtherCovered(s, step, k);
    }
  }

  lemma OnlyTakingUndercuts(s: System, step: Step)
    requires Enabled(s, step) && Target(s, step) >= |s.mutexes|
    ensures !Undercuts(s, step)
  {
  }

  ghost predicate CoveredThroughout(s: System, steps: seq<Step>)
    requires Legal(s, steps)
    decreases |steps|
  {
    Covered(s) && (steps == [] || CoveredThroughout(Apply(s, steps[0]), steps[1..]))
  }

  predicate NeverUndercuts(s: System, steps: seq<Step>)
    requires Legal(s, steps)
    decreases |steps|
  {
    steps == [] || (!Undercuts(s, steps[0]) && NeverUndercuts(Apply(s, steps[0]), steps[1..]))
  }

  lemma {:induction false} RunCovered(s: System, steps: seq<Step>)
    requires Inv(s) && Covered(s) && Legal(s, steps)
    ensures CoveredThroughout(s, steps) <==> NeverUndercuts(s, steps)
    decreases |steps|
  {
    hide Inv, Covered, Apply, Enabled, Undercuts;
    if steps != [] {
      StepKeepsInv(s, steps[0]);
      StepKeepsCovered(s, steps[0]);
      if !Undercuts(s, steps[0]) {
        RunCovered(Apply(s, steps[0]), steps[1..]);
      } else {
        ThroughoutStarts(Apply(s, steps[0]), steps[1..]);
      }
    }
  }

  lemma ThroughoutStarts(s: System, steps: seq<Step>)
    requires Legal(s, steps)
    ensures CoveredThroughout(s, steps) ==> Covered(s)
  {
  }

  // A holder covers every waiting task throughout a run exactly if nobody in it takes a mutex below a
  // task that waits for it.
  lemma CoveredExactlyIf(s: System, steps: seq<Step>)
    requires Initial(s) && Legal(s, steps)
    ensures CoveredThroughout(s, steps) <==> NeverUndercuts(s, steps)
  {
    hide Legal, CoveredThroughout, NeverUndercuts, Inv;
    InitialInv(s);
    RunCovered(s, steps);
  }

  // While none is above it the running task undercuts nobody.
  lemma TopDoesNotUndercut(s: System, step: Step)
    requires Inv(s) && Covered(s) && Top(s) && Enabled(s, step)
    ensures !Undercuts(s, step)
  {
    hide Inv, Covered, CoveredMutex, Undercuts, Highest;
    if step.Try? && s.mutexes[step.m].free {
      TakeInRange(s, step.m);
      TakeCovers(s, step.m);
      SameUndercut(s, step.m, step.block);
    } else {
      NoneTaken(s, step);
    }
  }

  lemma SameUndercut(s: System, m: MutexId, block: bool)
    requires Enabled(s, Try(m, block))
    ensures Undercuts(s, Try(m, block)) == Undercuts(s, Try(m, true))
  {
  }

  lemma NoneTaken(s: System, step: Step)
    requires Enabled(s, step) && (step.Try? ==> !s.mutexes[step.m].free)
    ensures !Undercuts(s, step)
  {
  }

  lemma TakeInRange(s: System, m: MutexId)
    requires InRange(s) && m < |s.mutexes|
    ensures InRange(Take(s, m))
  {
    assert MutexInRange(s.mutexes[m], |s.tasks|);
  }

  predicate NeverLapses(s: System, steps: seq<Step>)
    requires Legal(s, steps)
    decreases |steps|
  {
    steps == [] || (!Lapses(s, steps[0]) && NeverLapses(Apply(s, steps[0]), steps[1..]))
  }

  lemma {:induction false} RunKeepsCovered(s: System, steps: seq<Step>)
    requires Inv(s) && Covered(s) && Top(s) && Legal(s, steps) && NeverLapses(s, steps)
    ensures Covered(RunAll(s, steps)) && Top(RunAll(s, steps))
    decreases |steps|
  {
    hide Inv, Covered, Top, Apply, Enabled, Lapses;
    if steps != [] {
      StepKeepsInv(s, steps[0]);
      StepKeepsTop(s, steps[0]);
      TopDoesNotUndercut(s, steps[0]);
      StepKeepsCovered(s, steps[0]);
      RunKeepsCovered(Apply(s, steps[0]), steps[1..]);
    }
  }

  // As long as no lent priority lapses without a switch, the holder of a mutex has at least the
  // priority every waiting task had when it began to wait, and the running task is always one of
  // the highest that are ready.
  lemma EveryWaiterIsCovered(s: System, steps: seq<Step>)
    requires Initial(s) && Legal(s, steps) && NeverLapses(s, steps)
    ensures Covered(RunAll(s, steps)) && Top(RunAll(s, steps))
  {
    hide Legal, RunAll, NeverLapses;
    InitialInv(s);
    RunKeepsCovered(s, steps);
  }

  // ---------------------------------------------------------------- a lent priority that lapses

  function Task1(base: nat, priority: nat, held: nat, place: Place, wants: Option<MutexId>, blockedAt: nat): Tcb {
    Tcb(base, priority, held, priority, false, place, wants, blockedAt)
  }

  // Tasks 0 and 3 have base priority 1, tasks 1 and 2 have 2; only task 0 is awake.
  const SLEEPER: Tcb := Task1(2, 2, 0, Asleep, None, 0)
  const LOW: Tcb := Task1(1, 1, 0, Asleep, None, 0)
  const FREE: Mutex := Mutex(true, None, [], {}, None)

  function Start(): System {
    System([LOW.(place := Ready(1)), SLEEPER, SLEEPER, LOW], [FREE, FREE], 0, false)
  }

  ghost predicate Reachable(s: System) {
    exists steps :: Legal(Start(), steps) && RunAll(Start(), steps) == s
  }

  lemma {:induction false} RunAllThen(s: System, steps: seq<Step>, step: Step)
    requires Legal(s, steps) && Enabled(RunAll(s, steps), step)
    ensures Legal(s, steps + [step]) && RunAll(s, steps + [step]) == Apply(RunAll(s, steps), step)
    decreases |steps|
  {
    hide Apply, Enabled;
    if steps == [] {
      assert steps + [step] == [step];
      assert Legal(Apply(s, step), [step][1..]);
    } else {
      assert (steps + [step])[1..] == steps[1..] + [step];
      RunAllThen(Apply(s, steps[0]), steps[1..], step);
    }
  }

  lemma Next(s: System, step: Step, s': System)
    requires Reachable(s) && Enabled(s, step) && Apply(s, step) == s'
    ensures Reachable(s')
  {
    hide Apply, Enabled;
    var steps :| Legal(Start(), steps) && RunAll(Start(), steps) == s;
    RunAllThen(Start(), steps, step);
  }

  function Taken(priority: nat, place: Place): Tcb { Task1(1, priority, 2, place, None, 0) }

  function Lent(waiting: seq<Task>, since: set<Task>): Mutex { Mutex(false, Some(0), waiting, since, None) }

  const WAITER: Tcb := Task1(2, 2, 0, Blocked(1), None, 2)

  // Task 0 takes both mutexes; task 1 waits for the second and lends it priority 2.
  lemma FirstWaits()
    ensures Reachable(System([Taken(2, Ready(2)), WAITER, SLEEPER, LOW], [Lent([], {}), Lent([1], {1})], 1, true))
  {
    hide Reachable;
    assert Reachable(Start()) by { Begun(); }
    var one := [Task1(1, 1, 1, Ready(1), None, 0), SLEEPER, SLEEPER, LOW];
    Next(Start(), Try(0, true), System(one, [Lent([], {}), FREE], 0, false));
    var two := [Taken(1, Ready(1)), SLEEPER, SLEEPER, LOW];
    var taken := [Lent([], {}), Lent([], {})];
    Next(System(one, [Lent([], {}), FREE], 0, false), Try(1, true), System(two, taken, 0, false));
    var awake := [Taken(1, Ready(1)), SLEEPER.(place := Ready(2)), SLEEPER, LOW];
    Next(System(two, taken, 0, false), Wake(1, true), System(awake, taken, 0, true));
    Next(System(awake, taken, 0, true), Switch(1), System(awake, taken, 1, false));
    var waits := [Taken(2, Ready(2)), WAITER, SLEEPER, LOW];
    assert Paste([], 0, 1) == [1] && {} + {1} == {1};
    assert WaitFor(System(awake, taken, 1, false), 1).tasks == waits;
    Next(System(awake, taken, 1, false), Try(1, true), System(waits, [Lent([], {}), Lent([1], {1})], 1, true));
  }

  lemma Begun()
    ensures Reachable(Start())
  {
    assert Legal(Start(), []) && RunAll(Start(), []) == Start();
  }

  // Task 2 waits behind it, and task 0 goes to sleep.
  lemma SecondWaits()
    ensures Reachable(System([Taken(2, Asleep), WAITER, WAITER, LOW], [Lent([], {}), Lent([1, 2], {1, 2})], 0, true))
  {
    hide Reachable;
    FirstWaits();
    var m := [Lent([], {}), Lent([1], {1})];
    var t := [Taken(2, Ready(2)), WAITER, SLEEPER, LOW];
    var awake := [Taken(2, Ready(2)), WAITER, SLEEPER.(place := Ready(2)), LOW];
    Next(System(t, m, 1, true), Wake(2, true), System(awake, m, 1, true));
    Next(System(awake, m, 1, true), Switch(2), System(awake, m, 2, false));
    var both := [Taken(2, Ready(2)), WAITER, WAITER, LOW];
    var m' := [Lent([], {}), Lent([1, 2], {1, 2})];
    assert Paste([1], 1, 2) == [1, 2] && {1} + {2} == {1, 2};
    assert FirstLower(awake, [1], 2) == 1;
    assert WaitFor(System(awake, m, 2, false), 1).tasks == both;
    Next(System(awake, m, 2, false), Try(1, true), System(both, m', 2, true));
    Next(System(both, m', 2, true), Switch(0), System(both, m', 0, false));
    Next(System(both, m', 0, false), Sleep(false), System([Taken(2, Asleep), WAITER, WAITER, LOW], m', 0, true));
  }

  // Task 3 waits for the first mutex, and task 0 wakes.
  lemma ThirdWaits()
    ensures Reachable(System([Taken(2, Ready(2)), WAITER, WAITER, Task1(1, 1, 0, Blocked(0), None, 1)],
                             [Lent([3], {3}), Lent([1, 2], {1, 2})], 0, false))
  {
    hide Reachable;
    SecondWaits();
    var m := [Lent([], {}), Lent([1, 2], {1, 2})];
    var t := [Taken(2, Asleep), WAITER, WAITER, LOW];
    var awake := [Taken(2, Asleep), WAITER, WAITER, LOW.(place := Ready(1))];
    Next(System(t, m, 0, true), Wake(3, true), System(awake, m, 0, true));
    Next(System(awake, m, 0, true), Switch(3), System(awake, m, 3, false));
    var third := Task1(1, 1, 0, Blocked(0), None, 1);
    var m' := [Lent([3], {3}), Lent([1, 2], {1, 2})];
    assert Paste([], 0, 3) == [3] && {} + {3} == {3};
    assert WaitFor(System(awake, m, 3, false), 0).tasks == [Taken(2, Asleep), WAITER, WAITER, third];
    Next(System(awake, m, 3, false), Try(0, true), System([Taken(2, Asleep), WAITER, WAITER, third], m', 3, true));
    Next(System([Taken(2, Asleep), WAITER, WAITER, third], m', 3, true), Wake(0, true),
         System([Taken(2, Ready(2)), WAITER, WAITER, third], m', 3, true));
    Next(System([Taken(2, Ready(2)), WAITER, WAITER, third], m', 3, true), Switch(0),
         System([Taken(2, Ready(2)), WAITER, WAITER, third], m', 0, false));
  }

  // Task 0 returns the second mutex and keeps the lent priority, so task 1 is woken without a
  // switch; it returns the first and falls back to 1 without a switch, for task 3 has only 1 too;
  // and it takes the second mutex again, while task 2 still waits there with priority 2.
  lemma LapsedPriorityUncovers()
    ensures exists s :: Reachable(s) && !Covered(s)
  {
    hide Reachable;
    ThirdWaits();
    var third := Task1(1, 1, 0, Blocked(0), None, 1);
    var t := [Taken(2, Ready(2)), WAITER, WAITER, third];
    var heir := Task1(2, 2, 0, Ready(2), Some(1), 2);
    var t1 := [Task1(1, 2, 1, Ready(2), None, 0), heir, WAITER, third];
    var returned := Mutex(true, None, [2], {1, 2}, Some(1));
    Next(System(t, [Lent([3], {3}), Lent([1, 2], {1, 2})], 0, false), Return(1),
         System(t1, [Lent([3], {3}), returned], 0, false));
    var t2 := [Task1(1, 1, 0, Ready(1), None, 0), heir, WAITER, Task1(1, 1, 0, Ready(1), Some(0), 1)];
    var both := [Mutex(true, None, [], {3}, Some(3)), returned];
    assert [3][1..] == [];
    assert Give(System(t1, [Lent([3], {3}), returned], 0, false), 0).tasks == t2;
    Next(System(t1, [Lent([3], {3}), returned], 0, false), Return(0), System(t2, both, 0, false));
    var t3 := [Task1(1, 1, 1, Ready(1), None, 0), heir, WAITER, Task1(1, 1, 0, Ready(1), Some(0), 1)];
    var s := System(t3, [both[0], Mutex(false, Some(0), [2], {}, Some(1))], 0, false);
    Next(System(t2, both, 0, false), Try(1, true), s);
    assert !CoveredMutex(s, 1) by { assert s.tasks[s.mutexes[1].waiting[0]].blockedAt == 2; }
  }
}
