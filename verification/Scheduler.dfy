// tasks.c: the task lists and the tick with its two delayed lists, as functions on their state.
// SchedulerRuns.dfy adds suspension and the steps of the scheduler, Kernel.dfy proves the
// in-place code against both.
//
// `epoch` and `due` are history: how often the 16-bit tick has wrapped, and the unbounded tick at
// which each blocked task wants to wake.
module Scheduler {
  import opened Rings

  const N: nat := 0x10000          // ticks before xTickCount wraps (configUSE_16_BIT_TICKS)
  const MAX_DELAY: nat := N - 1    // portMAX_DELAY
  const PRIORITIES: nat := 4       // configMAX_PRIORITIES

  type Task = nat

  // The list that a task's xGenericListItem is in (its pvContainer).
  datatype Place = Ready(list: nat) | Delay(list: nat) | Terminated

  datatype TaskLists = TaskLists(
    tick: nat,                    // xTickCount
    next: nat,                    // xNextTaskUnblockTime
    delays: seq<seq<Task>>,       // xDelayedTaskList1 and xDelayedTaskList2
    cur: nat,                     // which of the two pxDelayedTaskList points to
    ready: seq<Ring<Task>>,       // pxReadyTasksLists
    top: nat,                     // uxTopReadyPriority
    pending: seq<Task>,           // xPendingReadyList
    terminated: seq<Task>,        // xTasksWaitingTermination
    place: map<Task, Place>,
    value: map<Task, nat>,        // xItemValue of xGenericListItem
    priority: map<Task, nat>,     // uxPriority
    onEvent: set<Task>,           // the tasks whose xEventListItem is in some event list
    current: Task,                // pxCurrentTCB
    tasks: nat,                   // uxCurrentNumberOfTasks
    epoch: nat,
    due: map<Task, nat>)
  {
    function Clock(): nat { epoch * N + tick }

    predicate Blocked(t: Task) { t in place && place[t].Delay? }

    predicate IsReady(t: Task) { t in place && place[t].Ready? }
  }

  // ---------------------------------------------------------------- the invariant

  // The list q holds exactly the tasks whose item names it as container, each once.
  ghost predicate Holds(q: seq<Task>, place: map<Task, Place>, l: Place) {
    && NoDup(q)
    && forall t :: t in q <==> t in place && place[t] == l
  }

  ghost predicate ReadyHold(ready: seq<Ring<Task>>, place: map<Task, Place>) {
    && |ready| == PRIORITIES
    && (forall p :: 0 <= p < PRIORITIES ==> ready[p].Valid() && Holds(ready[p].items, place, Ready(p)))
  }

  ghost predicate DelaysHold(delays: seq<seq<Task>>, place: map<Task, Place>) {
    && |delays| == 2
    && (forall k :: 0 <= k < 2 ==> Holds(delays[k], place, Delay(k)))
  }

  ghost predicate ListsMatch(s: TaskLists) {
    && ReadyHold(s.ready, s.place)
    && |s.delays| == 2 && s.cur < 2 && DelaysHold(s.delays, s.place)
    && Holds(s.terminated, s.place, Terminated)
  }

  // Every task but those in hand is in exactly one list, a ready one in the list of its priority.
  ghost predicate TasksPlaced(s: TaskLists, hand: set<Task>) {
    && s.place.Keys == s.priority.Keys - hand && hand <= s.priority.Keys
    && s.tasks == |s.priority|
    && s.current in s.priority
    && (forall t :: t in s.priority ==> s.priority[t] < PRIORITIES)
    && (forall t :: t in s.place ==>
          match s.place[t]
          case Ready(p) => p == s.priority[t]
          case Delay(k) => k < 2
          case Terminated => true)
    && s.top < PRIORITIES
    && (forall p :: s.top < p < |s.ready| ==> s.ready[p].items == [])
  }

  // Only a blocked task waits for an event, or to be readied when the scheduler resumes.
  ghost predicate EventsMatch(s: TaskLists) {
    && NoDup(s.pending)
    && (forall t :: t in s.onEvent ==> s.Blocked(t) && t !in s.pending)
    && (forall t :: t in s.pending ==> s.Blocked(t))
  }

  function Values(q: seq<Task>, value: map<Task, nat>): (v: seq<nat>)
    requires forall t :: t in q ==> t in value
    ensures |v| == |q|
  {
    seq(|q|, i requires 0 <= i < |q| => value[q[i]])
  }

  ghost predicate InWakeOrder(q: seq<Task>, value: map<Task, nat>) {
    (forall t :: t in q ==> t in value) && Sorted(Values(q, value))
  }

  ghost predicate DelaysInOrder(delays: seq<seq<Task>>, value: map<Task, nat>) {
    |delays| == 2 && forall k :: 0 <= k < 2 ==> InWakeOrder(delays[k], value)
  }

  // A task on the current list wakes in this epoch, not before `from`; one on the other list
  // wakes in the next epoch, less than a whole wrap ahead.
  ghost predicate WakesFrom(s: TaskLists, from: nat) {
    && s.tick < N && s.next < N
    && (forall t :: s.Blocked(t) ==>
          && t in s.value && t in s.due && s.value[t] < N
          && s.due[t] == (if s.place[t].list == s.cur then s.epoch else s.epoch + 1) * N + s.value[t]
          && (if s.place[t].list == s.cur then from <= s.value[t] else s.value[t] < s.tick))
    && DelaysInOrder(s.delays, s.value)
  }

  // The least value there may be on the current list. A task that blocked for no time has the present
  // tick, but that must not be the last before the wrap, which would leave it behind on the old list.
  function Earliest(s: TaskLists): nat { if s.tick + 1 == N then N else s.tick }

  // xNextTaskUnblockTime is never past the first wake time of the current list.
  ghost predicate NextIsEarly(s: TaskLists)
    requires |s.delays| == 2 && s.cur < 2
  {
    forall t :: t in s.delays[s.cur] ==> t in s.value && s.next <= s.value[t]
  }

  // What every list operation keeps, with the tasks in hand in no list.
  ghost predicate Struct(s: TaskLists, hand: set<Task>, from: nat) {
    ListsMatch(s) && TasksPlaced(s, hand) && EventsMatch(s) && WakesFrom(s, from)
  }

  // ---------------------------------------------------------------- list moves

  // uxListRemove of the generic item, on whichever list holds it.
  function Unlist(s: TaskLists, t: Task): TaskLists
    requires ListsMatch(s) && TasksPlaced(s, {}) && t in s.place
  {
    var l := s.place[t];
    s.(place := s.place - {t},
       ready := if l.Ready? then s.ready[l.list := s.ready[l.list].Remove(t)] else s.ready,
       delays := if l.Delay? then s.delays[l.list := Without(s.delays[l.list], t)] else s.delays,
       terminated := if l.Terminated? then Without(s.terminated, t) else s.terminated)
  }

  // uxListRemove of the event item too, if it is in a list.
  function TakeOut(s: TaskLists, t: Task): TaskLists
    requires ListsMatch(s) && TasksPlaced(s, {}) && t in s.place
  {
    Unlist(s, t).(onEvent := s.onEvent - {t}, pending := Without(s.pending, t))
  }

  // prvAddTaskToReadyList
  function AddReady(s: TaskLists, t: Task): TaskLists
    requires ListsMatch(s) && TasksPlaced(s, {t})
  {
    var p := s.priority[t];
    s.(top := if p > s.top then p else s.top,
       ready := s.ready[p := s.ready[p].InsertEnd(t)],
       place := s.place[t := Ready(p)])
  }

  // vListInsert on a delayed list.
  function InSorted(q: seq<Task>, value: map<Task, nat>, t: Task, v: nat): seq<Task>
    requires forall u :: u in q ==> u in value
  {
    Paste(q, FirstGreater(Values(q, value), v), t)
  }

  // prvAddCurrentTaskToDelayedList, for the task that wants to wake at the unbounded tick `due`.
  function AddDelayed(s: TaskLists, t: Task, due: nat): TaskLists
    requires s.cur < 2 && DelaysInOrder(s.delays, s.value)
  {
    var wake := due % N;
    var k := if wake < s.tick then 1 - s.cur else s.cur;
    s.(value := s.value[t := wake], due := s.due[t := due], place := s.place[t := Delay(k)],
       delays := s.delays[k := InSorted(s.delays[k], s.value, t, wake)],
       next := if k == s.cur && wake < s.next then wake else s.next)
  }

  // vListInsertEnd on xTasksWaitingTermination, whose index always stays on the end marker.
  function AddTerminated(s: TaskLists, t: Task): TaskLists {
    s.(terminated := s.terminated + [t], place := s.place[t := Terminated])
  }

  // ---------------------------------------------------------------- what the moves keep

  lemma HoldsWithout(q: seq<Task>, place: map<Task, Place>, l: Place, t: Task)
    requires Holds(q, place, l)
    ensures Holds(Without(q, t), place - {t}, l)
    ensures t !in place || place[t] != l ==> Without(q, t) == q
  {
    WithoutFacts(q, t);
  }

  lemma UnlistKeepsReady(s: TaskLists, t: Task)
    requires ListsMatch(s) && TasksPlaced(s, {}) && t in s.place
    ensures ReadyHold(Unlist(s, t).ready, Unlist(s, t).place)
  {
    hide DelaysHold;
    var u := Unlist(s, t);
    forall p | 0 <= p < PRIORITIES ensures u.ready[p].Valid() && Holds(u.ready[p].items, u.place, Ready(p)) {
      if s.place[t] == Ready(p) { RemoveFacts(s.ready[p], t); }
    }
  }

  lemma UnlistKeepsLists(s: TaskLists, t: Task)
    requires ListsMatch(s) && TasksPlaced(s, {}) && t in s.place
    ensures ListsMatch(Unlist(s, t))
  {
    UnlistKeepsReady(s, t);
    UnlistKeepsDelays(s, t);
    hide ReadyHold, DelaysHold, Holds;
    HoldsWithout(s.terminated, s.place, Terminated, t);
  }

  lemma UnlistKeepsDelays(s: TaskLists, t: Task)
    requires ListsMatch(s) && TasksPlaced(s, {}) && t in s.place
    ensures DelaysHold(Unlist(s, t).delays, Unlist(s, t).place)
  {
    hide ReadyHold, Holds, Without;
    assert Holds(s.delays[0], s.place, Delay(0)) && Holds(s.delays[1], s.place, Delay(1));
    HoldsWithout(s.delays[0], s.place, Delay(0), t);
    HoldsWithout(s.delays[1], s.place, Delay(1), t);
  }

  lemma WithoutInOrder(q: seq<Task>, value: map<Task, nat>, t: Task)
    requires NoDup(q) && InWakeOrder(q, value)
    ensures InWakeOrder(Without(q, t), value)
  {
    WithoutFacts(q, t);
    hide NoDup;
    if t in q {
      ValuesCut(q, value, Find(q, t));
    }
  }

  lemma ValuesCut(q: seq<Task>, value: map<Task, nat>, p: nat)
    requires InWakeOrder(q, value) && p < |q|
    ensures InWakeOrder(Cut(q, p), value)
  {
    forall i | 0 <= i < |q| - 1 ensures Cut(q, p)[i] == q[if i < p then i else i + 1] { }
    assert Values(Cut(q, p), value) == Cut(Values(q, value), p);
  }

  lemma InSortedFacts(q: seq<Task>, value: map<Task, nat>, t: Task, v: nat)
    requires NoDup(q) && t !in q && InWakeOrder(q, value)
    ensures var r := InSorted(q, value, t, v);
      && NoDup(r) && (forall u :: u in r <==> u in q || u == t) && InWakeOrder(r, value[t := v])
  {
    var p := FirstGreater(Values(q, value), v);
    PasteFacts(q, p, t);
    InsertSorted(Values(q, value), v);
    ValuesPaste(q, value, p, t, v);
    hide NoDup, Sorted, FirstGreater, Paste, Values;
  }

  lemma ValuesPaste(q: seq<Task>, value: map<Task, nat>, p: nat, t: Task, v: nat)
    requires t !in q && p <= |q| && (forall u :: u in q ==> u in value)
    ensures forall u :: u in Paste(q, p, t) ==> u in value[t := v]
    ensures Values(Paste(q, p, t), value[t := v]) == Paste(Values(q, value), p, v)
  {
    forall i | 0 <= i <= |q| ensures Paste(q, p, t)[i] == if i < p then q[i] else if i == p then t else q[i - 1] { }
    assert |Paste(q, p, t)| == |q| + 1;
  }

  lemma TakeOutKeepsPlaces(s: TaskLists, t: Task)
    requires ListsMatch(s) && TasksPlaced(s, {}) && t in s.place
    ensures TasksPlaced(TakeOut(s, t), {t})
  {
    var u := TakeOut(s, t);
    forall p | s.top < p < |s.ready| ensures u.ready[p].items == [] {
      assert t !in s.ready[p].items && Holds(s.ready[p].items, s.place, Ready(p));
    }
  }

  lemma TakeOutKeepsLists(s: TaskLists, t: Task)
    requires ListsMatch(s) && TasksPlaced(s, {}) && t in s.place
    ensures ListsMatch(TakeOut(s, t)) && TasksPlaced(TakeOut(s, t), {t})
  {
    UnlistKeepsLists(s, t);
    TakeOutKeepsPlaces(s, t);
    hide ReadyHold, DelaysHold, Holds, TasksPlaced;
  }

  lemma TakeOutKeepsEvents(s: TaskLists, t: Task)
    requires ListsMatch(s) && TasksPlaced(s, {}) && EventsMatch(s) && t in s.place
    ensures EventsMatch(TakeOut(s, t))
  {
    WithoutFacts(s.pending, t);
    hide ListsMatch, TasksPlaced, NoDup, Without;
  }

  lemma TakeOutKeepsOrder(s: TaskLists, t: Task)
    requires ListsMatch(s) && TasksPlaced(s, {}) && t in s.place
    requires DelaysInOrder(s.delays, s.value)
    ensures DelaysInOrder(TakeOut(s, t).delays, s.value)
  {
    WithoutInOrder(s.delays[0], s.value, t);
    WithoutInOrder(s.delays[1], s.value, t);
  }

  lemma TakeOutKeepsWakes(s: TaskLists, t: Task, from: nat)
    requires ListsMatch(s) && TasksPlaced(s, {}) && t in s.place && WakesFrom(s, from)
    ensures WakesFrom(TakeOut(s, t), from)
  {
    TakeOutKeepsOrder(s, t);
    hide ListsMatch, DelaysInOrder, TasksPlaced;
  }

  lemma TakeOutKeepsNext(s: TaskLists, t: Task)
    requires ListsMatch(s) && TasksPlaced(s, {}) && t in s.place && NextIsEarly(s)
    ensures NextIsEarly(TakeOut(s, t))
  {
    WithoutFacts(s.delays[s.cur], t);
  }

  // Taking a task out of its lists keeps everything else in order.
  lemma TakeOutKeeps(s: TaskLists, t: Task, from: nat)
    requires Struct(s, {}, from) && t in s.place
    ensures Struct(TakeOut(s, t), {t}, from)
    ensures NextIsEarly(s) ==> NextIsEarly(TakeOut(s, t))
  {
    hide ReadyHold, DelaysHold, Holds, TasksPlaced, EventsMatch, WakesFrom, NextIsEarly;
    TakeOutKeepsLists(s, t);
    TakeOutKeepsEvents(s, t);
    TakeOutKeepsWakes(s, t, from);
    if NextIsEarly(s) { TakeOutKeepsNext(s, t); }
  }

  lemma AddReadyKeepsLists(s: TaskLists, t: Task)
    requires ListsMatch(s) && TasksPlaced(s, {t})
    ensures ListsMatch(AddReady(s, t))
  {
    InsertEndFacts(s.ready[s.priority[t]], t);
    assert ReadyHold(AddReady(s, t).ready, AddReady(s, t).place);
  }

  lemma AddReadyKeeps(s: TaskLists, t: Task, from: nat)
    requires Struct(s, {t}, from)
    ensures Struct(AddReady(s, t), {}, from)
    ensures NextIsEarly(s) ==> NextIsEarly(AddReady(s, t))
  {
    hide ReadyHold, DelaysHold, Holds, TasksPlaced, EventsMatch, WakesFrom, NextIsEarly;
    AddReadyKeepsLists(s, t);
    AddReadyKeepsPlaces(s, t);
    AddReadyKeepsRest(s, t, from);
  }

  lemma AddReadyKeepsRest(s: TaskLists, t: Task, from: nat)
    requires ListsMatch(s) && TasksPlaced(s, {t}) && EventsMatch(s) && WakesFrom(s, from)
    ensures EventsMatch(AddReady(s, t)) && WakesFrom(AddReady(s, t), from)
    ensures NextIsEarly(s) ==> NextIsEarly(AddReady(s, t))
  {
    hide ReadyHold, DelaysHold, Holds, DelaysInOrder;
    assert t !in s.place;
  }

  lemma AddReadyKeepsPlaces(s: TaskLists, t: Task)
    requires ListsMatch(s) && TasksPlaced(s, {t})
    ensures TasksPlaced(AddReady(s, t), {})
  {
    hide DelaysHold, Holds;
  }

  // The wake times a task may ask for: less than a whole wrap ahead, and not the present tick if that
  // is the last before the wrap.
  predicate InWindow(s: TaskLists, due: nat) {
    s.Clock() <= due < s.Clock() + N && (due == s.Clock() ==> s.tick + 1 < N)
  }

  // Where a wake time falls: before the tick only if it is in the next epoch.
  lemma WakeEpoch(s: TaskLists, due: nat)
    requires s.tick < N && InWindow(s, due)
    ensures due == (if due % N < s.tick then s.epoch + 1 else s.epoch) * N + due % N
    ensures due % N >= s.tick ==> due % N >= Earliest(s)
  {
  }

  lemma AddDelayedKeepsOrder(s: TaskLists, t: Task, due: nat)
    requires ListsMatch(s) && t !in s.place && DelaysInOrder(s.delays, s.value)
    ensures DelaysInOrder(AddDelayed(s, t, due).delays, AddDelayed(s, t, due).value)
  {
    var u := AddDelayed(s, t, due);
    forall k | 0 <= k < 2 ensures InWakeOrder(u.delays[k], u.value) {
      assert Holds(s.delays[k], s.place, Delay(k)) && InWakeOrder(s.delays[k], s.value);
      InSortedFacts(s.delays[k], s.value, t, due % N);
      assert Values(s.delays[k], s.value) == Values(s.delays[k], u.value);
    }
  }

  lemma AddDelayedKeepsDelays(s: TaskLists, t: Task, due: nat)
    requires ListsMatch(s) && t !in s.place && DelaysInOrder(s.delays, s.value)
    ensures DelaysHold(AddDelayed(s, t, due).delays, AddDelayed(s, t, due).place)
  {
    hide ReadyHold;
    var u := AddDelayed(s, t, due);
    forall k | 0 <= k < 2 ensures Holds(u.delays[k], u.place, Delay(k)) {
      assert Holds(s.delays[k], s.place, Delay(k)) && InWakeOrder(s.delays[k], s.value);
      InSortedFacts(s.delays[k], s.value, t, due % N);
    }
    hide InWakeOrder;
  }

  lemma AddDelayedKeepsLists(s: TaskLists, t: Task, due: nat)
    requires ListsMatch(s) && t !in s.place && DelaysInOrder(s.delays, s.value)
    ensures ListsMatch(AddDelayed(s, t, due))
  {
    AddDelayedKeepsDelays(s, t, due);
    hide DelaysHold, InWakeOrder, Sorted;
  }

  lemma AddDelayedKeepsWakes(s: TaskLists, t: Task, due: nat)
    requires ListsMatch(s) && t !in s.place && WakesFrom(s, Earliest(s)) && InWindow(s, due)
    ensures WakesFrom(AddDelayed(s, t, due), Earliest(s))
  {
    WakeEpoch(s, due);
    AddDelayedKeepsOrder(s, t, due);
    hide ReadyHold, DelaysHold, Holds, InWakeOrder, DelaysInOrder;
  }

  lemma AddDelayedKeepsNext(s: TaskLists, t: Task, due: nat)
    requires ListsMatch(s) && t !in s.place && DelaysInOrder(s.delays, s.value) && NextIsEarly(s)
    ensures NextIsEarly(AddDelayed(s, t, due))
  {
    assert Holds(s.delays[s.cur], s.place, Delay(s.cur)) && InWakeOrder(s.delays[s.cur], s.value);
    InSortedFacts(s.delays[s.cur], s.value, t, due % N);
  }

  lemma AddDelayedKeeps(s: TaskLists, t: Task, due: nat)
    requires Struct(s, {t}, Earliest(s)) && NextIsEarly(s) && InWindow(s, due)
    ensures Struct(AddDelayed(s, t, due), {}, Earliest(s)) && NextIsEarly(AddDelayed(s, t, due))
  {
    hide ReadyHold, DelaysHold, Holds, DelaysInOrder, NextIsEarly, EventsMatch;
    AddDelayedKeepsLists(s, t, due);
    AddDelayedKeepsWakes(s, t, due);
    AddDelayedKeepsNext(s, t, due);
    AddDelayedKeepsTasks(s, t, due);
  }

  lemma AddDelayedKeepsTasks(s: TaskLists, t: Task, due: nat)
    requires s.cur < 2 && DelaysInOrder(s.delays, s.value) && TasksPlaced(s, {t}) && EventsMatch(s)
    ensures TasksPlaced(AddDelayed(s, t, due), {}) && EventsMatch(AddDelayed(s, t, due))
  {
    hide DelaysInOrder, InSorted;
  }

  lemma AddTerminatedKeepsLists(s: TaskLists, t: Task)
    requires ListsMatch(s) && t !in s.place
    ensures ListsMatch(AddTerminated(s, t))
  {
    PasteFacts(s.terminated, |s.terminated|, t);
    assert Paste(s.terminated, |s.terminated|, t) == s.terminated + [t];
  }

  lemma AddTerminatedKeeps(s: TaskLists, t: Task, from: nat)
    requires Struct(s, {t}, from)
    ensures Struct(AddTerminated(s, t), {}, from)
    ensures NextIsEarly(s) ==> NextIsEarly(AddTerminated(s, t))
  {
    AddTerminatedKeepsLists(s, t);
    assert TasksPlaced(AddTerminated(s, t), {});
    assert WakesFrom(AddTerminated(s, t), from);
  }

  // ---------------------------------------------------------------- the tick

  // Out of all lists and into the ready list of its priority.
  function Wake(s: TaskLists, t: Task): TaskLists
    requires ListsMatch(s) && TasksPlaced(s, {}) && t in s.place
  {
    TakeOutKeepsLists(s, t);
    AddReady(TakeOut(s, t), t)
  }

  lemma WakeKeeps(s: TaskLists, t: Task, from: nat)
    requires Struct(s, {}, from) && t in s.place
    ensures Struct(Wake(s, t), {}, from)
    ensures NextIsEarly(s) ==> NextIsEarly(Wake(s, t))
  {
    hide ListsMatch, TasksPlaced, EventsMatch, WakesFrom, NextIsEarly;
    TakeOutKeeps(s, t, from);
    AddReadyKeeps(TakeOut(s, t), t, from);
  }

  lemma WakeFrame(s: TaskLists, t: Task)
    requires ListsMatch(s) && TasksPlaced(s, {}) && t in s.place
    ensures Wake(s, t).tick == s.tick && Wake(s, t).epoch == s.epoch && Wake(s, t).pending == Without(s.pending, t)
    ensures Wake(s, t).terminated == if s.place[t].Terminated? then Without(s.terminated, t) else s.terminated
  {
    hide ListsMatch, TasksPlaced;
    TakeOutKeepsLists(s, t);
  }

  // The wake time of the head of the current list.
  function FirstWake(s: TaskLists): nat
    requires s.cur < 2 && DelaysInOrder(s.delays, s.value)
  {
    var q := s.delays[s.cur];
    if q == [] then MAX_DELAY else
      assert q[0] in q && InWakeOrder(q, s.value);
      s.value[q[0]]
  }

  // The tick and the switch of the delayed lists.
  function Advance(s: TaskLists): TaskLists
    requires s.cur < 2 && DelaysInOrder(s.delays, s.value)
  {
    var tick := (s.tick + 1) % N;
    if tick != 0 then s.(tick := tick) else
      var a := s.(tick := 0, epoch := s.epoch + 1, cur := 1 - s.cur);
      a.(next := FirstWake(a))
  }

  // The loop of xTaskIncrementTick: ready the head of the current list while it is due.
  function PopDue(s: TaskLists): TaskLists
    requires Struct(s, {}, 0)
    decreases |s.delays[s.cur]|
  {
    var q := s.delays[s.cur];
    if q == [] then s.(next := MAX_DELAY) else
      PopStep(s);
      if s.tick < s.value[q[0]] then s.(next := s.value[q[0]]) else PopDue(Wake(s, q[0]))
  }

  lemma HeadFacts(s: TaskLists)
    requires DelaysHold(s.delays, s.place) && s.cur < 2 && DelaysInOrder(s.delays, s.value) && s.delays[s.cur] != []
    ensures var t := s.delays[s.cur][0]; t in s.place && s.place[t] == Delay(s.cur) && t in s.value
  {
    assert Holds(s.delays[s.cur], s.place, Delay(s.cur));
  }

  // Readying the head of the current list changes its place and shortens that list.
  lemma PopStep(s: TaskLists)
    requires Struct(s, {}, 0) && s.delays[s.cur] != []
    ensures var t := s.delays[s.cur][0];
      && t in s.place && s.place[t] == Delay(s.cur) && t in s.value && t in s.priority && s.current in s.priority
      && var w := Wake(s, t);
      && Struct(w, {}, 0) && |w.delays[w.cur]| < |s.delays[s.cur]|
      && w == s.(delays := w.delays, ready := w.ready, top := w.top, place := s.place[t := Ready(s.priority[t])],
                 onEvent := s.onEvent - {t}, pending := Without(s.pending, t))
  {
    hide ReadyHold, DelaysHold, Holds, EventsMatch, DelaysInOrder;
    HeadFacts(s);
    WakeKeeps(s, s.delays[s.cur][0], 0);
  }

  // xTaskIncrementTick with the scheduler running.
  function Tick(s: TaskLists): TaskLists
    requires Struct(s, {}, Earliest(s)) && NextIsEarly(s)
  {
    AdvanceKeeps(s);
    var a := Advance(s);
    if a.tick >= a.next then PopDue(a) else a
  }

  lemma FirstIsLeast(q: seq<Task>, value: map<Task, nat>, t: Task)
    requires InWakeOrder(q, value) && t in q
    ensures value[q[0]] <= value[t]
  {
    var i :| 0 <= i < |q| && q[i] == t;
    assert Values(q, value)[0] <= Values(q, value)[i];
  }

  lemma WrapFindsEmptyList(s: TaskLists)
    requires ListsMatch(s) && WakesFrom(s, Earliest(s)) && s.tick + 1 == N
    ensures s.delays[s.cur] == []
  {
    if s.delays[s.cur] != [] { assert s.Blocked(s.delays[s.cur][0]); }
  }

  lemma NoneLeft(s: TaskLists)
    requires ListsMatch(s) && s.delays[s.cur] == []
    ensures forall t :: s.Blocked(t) ==> s.place[t].list != s.cur
  {
    assert Holds(s.delays[s.cur], s.place, Delay(s.cur));
  }

  lemma WrapKeepsWakes(s: TaskLists)
    requires ListsMatch(s) && TasksPlaced(s, {}) && WakesFrom(s, Earliest(s)) && s.tick + 1 == N
    ensures WakesFrom(Advance(s), 0) && NextIsEarly(Advance(s))
  {
    hide ReadyHold, DelaysHold, Holds, DelaysInOrder, FirstWake;
    NoneWakesNow(s);
    FirstWakeIsLeast(s, s.(tick := 0, epoch := s.epoch + 1, cur := 1 - s.cur));
    SmallerFrom(s, Earliest(s));
    WrapExchanges(s, Advance(s));
  }

  lemma NoneWakesNow(s: TaskLists)
    requires ListsMatch(s) && TasksPlaced(s, {}) && WakesFrom(s, Earliest(s)) && s.tick + 1 == N
    ensures forall t :: s.Blocked(t) ==> s.place[t].list != s.cur && s.place[t].list < 2
  {
    WrapFindsEmptyList(s);
    NoneLeft(s);
    hide ListsMatch;
  }

  lemma SmallerFrom(s: TaskLists, from: nat)
    requires WakesFrom(s, from)
    ensures WakesFrom(s, 0)
    ensures s.cur < 2 ==> DelaysInOrder(s.delays, s.value)
  {
    hide DelaysInOrder;
  }

  // With the current list empty, the wake times of the next epoch become those of the present one.
  lemma WrapExchanges(s: TaskLists, a: TaskLists)
    requires WakesFrom(s, 0) && s.cur < 2 && s.tick + 1 == N
    requires forall t :: s.Blocked(t) ==> s.place[t].list != s.cur && s.place[t].list < 2
    requires a == s.(tick := 0, epoch := s.epoch + 1, cur := 1 - s.cur, next := a.next) && a.next < N
    ensures WakesFrom(a, 0)
  {
    hide DelaysInOrder;
  }

  lemma FirstWakeIsLeast(s: TaskLists, a: TaskLists)
    requires ListsMatch(s) && WakesFrom(s, Earliest(s))
    requires a == s.(tick := a.tick, epoch := a.epoch, cur := a.cur) && a.cur < 2
    ensures DelaysInOrder(a.delays, a.value) && FirstWake(a) < N && NextIsEarly(a.(next := FirstWake(a)))
  {
    hide ReadyHold;
    var q := s.delays[a.cur];
    assert InWakeOrder(q, s.value) && Holds(q, s.place, Delay(a.cur));
    if q != [] { assert q[0] in q && s.Blocked(q[0]); }
    forall t | t in q ensures t in s.value && FirstWake(a) <= s.value[t] {
      FirstIsLeast(q, s.value, t);
    }
  }

  lemma WrapKeeps(s: TaskLists)
    requires Struct(s, {}, Earliest(s)) && s.tick + 1 == N
    ensures Struct(Advance(s), {}, 0) && NextIsEarly(Advance(s))
  {
    hide ReadyHold, DelaysHold, Holds, DelaysInOrder, NextIsEarly, FirstWake;
    WrapKeepsWakes(s);
    SamePlacesAdvance(s, Advance(s));
  }

  lemma SamePlacesAdvance(s: TaskLists, a: TaskLists)
    requires ListsMatch(s) && TasksPlaced(s, {}) && EventsMatch(s) && a.cur < 2
    requires a == s.(tick := a.tick, epoch := a.epoch, cur := a.cur, next := a.next)
    ensures ListsMatch(a) && TasksPlaced(a, {}) && EventsMatch(a)
  {
    hide ReadyHold, DelaysHold, Holds;
  }

  lemma NoWrapKeeps(s: TaskLists)
    requires Struct(s, {}, Earliest(s)) && NextIsEarly(s) && s.tick + 1 < N
    ensures Struct(Advance(s), {}, 0) && NextIsEarly(Advance(s))
  {
    hide ReadyHold, DelaysHold, Holds, DelaysInOrder;
  }

  // The clock moves by one; when the tick wraps, the list switched away from is empty.
  lemma AdvanceKeeps(s: TaskLists)
    requires Struct(s, {}, Earliest(s)) && NextIsEarly(s)
    ensures Struct(Advance(s), {}, 0) && NextIsEarly(Advance(s))
    ensures Advance(s).Clock() == s.Clock() + 1
    ensures Advance(s).tick == 0 ==> s.delays[s.cur] == []
  {
    hide ReadyHold, DelaysHold, Holds, DelaysInOrder, TasksPlaced, EventsMatch, NextIsEarly;
    if s.tick + 1 == N { WrapFindsEmptyList(s); WrapKeeps(s); } else { NoWrapKeeps(s); }
  }

  // Why InWindow excepts the last tick before the wrap: a task that blocked for no time then would not
  // be woken by the next tick, for its list becomes the one of the next epoch with the task on it.
  lemma LastTickStrands(s: TaskLists, t: Task)
    requires ListsMatch(s) && t !in s.place && DelaysInOrder(s.delays, s.value) && s.tick + 1 == N
    ensures
      var b := AddDelayed(s, t, s.Clock());
      && b.cur < 2 && DelaysInOrder(b.delays, b.value)
      && var a := Advance(b);
         a.Clock() == s.Clock() + 1 && a.place[t] == Delay(1 - a.cur) && a.value[t] == N - 1
  {
    AddDelayedKeepsOrder(s, t, s.Clock());
    WakeNow(s);
    hide ListsMatch, DelaysInOrder, InSorted;
  }

  lemma WakeNow(s: TaskLists)
    requires s.tick < N
    ensures s.Clock() % N == s.tick
  {
  }

  // The task is not below the running one.
  predicate NotBelow(s: TaskLists, t: Task) {
    t in s.priority && s.current in s.priority && s.priority[t] >= s.priority[s.current]
  }

  // What PopDue does to the task t.
  ghost predicate Due(s: TaskLists, t: Task) {
    s.Blocked(t) && s.place[t].list == s.cur && t in s.value && s.value[t] <= s.tick
  }

  lemma {:induction false} PopDueWakes(s: TaskLists)
    requires Struct(s, {}, 0)
    ensures Struct(PopDue(s), {}, s.tick + 1) && NextIsEarly(PopDue(s))
    ensures PopDue(s).place.Keys == s.place.Keys
    ensures forall t :: t in s.place ==> PopDue(s).place[t] == if Due(s, t) then Ready(s.priority[t]) else s.place[t]
    ensures SameButLists(s, PopDue(s)) && EventsLeft(s, PopDue(s))
    decreases |s.delays[s.cur]|
  {
    hide ReadyHold, DelaysHold, Holds, TasksPlaced, EventsMatch, DelaysInOrder, NextIsEarly;
    var q := s.delays[s.cur];
    if q == [] {
      NoneLeft(s);
      EventsLeftNone(s);
      StopKeeps(s, MAX_DELAY);
    } else {
      PopStep(s);
      if s.tick < s.value[q[0]] {
        NoneDue(s);
        EventsLeftNone(s);
        StopKeeps(s, s.value[q[0]]);
      } else {
        PopDueWakes(Wake(s, q[0]));
      }
    }
  }

  // The loop ends when no task of the current list is due.
  lemma StopKeeps(s: TaskLists, next: nat)
    requires Struct(s, {}, 0) && next < N
    requires forall t :: t in s.place && s.place[t] == Delay(s.cur) ==>
      t in s.value && s.tick < s.value[t] && next <= s.value[t]
    ensures Struct(s.(next := next), {}, s.tick + 1) && NextIsEarly(s.(next := next))
  {
    CurrentIsPlaced(s);
    hide ListsMatch, TasksPlaced, EventsMatch, DelaysInOrder;
    SamePlacesAdvance(s, s.(next := next));
  }

  lemma CurrentIsPlaced(s: TaskLists)
    requires ListsMatch(s)
    ensures forall t :: t in s.delays[s.cur] <==> t in s.place && s.place[t] == Delay(s.cur)
  {
    assert Holds(s.delays[s.cur], s.place, Delay(s.cur));
  }

  // A readied task has also left its event list; the others stay on theirs.
  ghost predicate EventsLeft(s: TaskLists, r: TaskLists) {
    && (forall t :: t in r.onEvent <==> t in s.onEvent && r.Blocked(t))
    && (s.pending == [] ==> r.pending == [])
  }

  lemma EventsLeftNone(s: TaskLists)
    requires EventsMatch(s)
    ensures EventsLeft(s, s)
  {
  }

  // Only the task lists, the event lists and the two cached priorities and times differ.
  ghost predicate SameButLists(s: TaskLists, r: TaskLists) {
    r == s.(next := r.next, delays := r.delays, ready := r.ready, top := r.top, place := r.place,
            onEvent := r.onEvent, pending := r.pending)
  }

  lemma NoneDue(s: TaskLists)
    requires ListsMatch(s) && DelaysInOrder(s.delays, s.value) && s.delays[s.cur] != []
    requires var t := s.delays[s.cur][0]; t in s.value && s.tick < s.value[t]
    ensures forall t :: t in s.place && s.place[t] == Delay(s.cur) ==>
      t in s.value && s.tick < s.value[t] && s.value[s.delays[s.cur][0]] <= s.value[t]
  {
    assert Holds(s.delays[s.cur], s.place, Delay(s.cur)) && InWakeOrder(s.delays[s.cur], s.value);
    forall t | t in s.delays[s.cur] ensures t in s.value && s.value[s.delays[s.cur][0]] <= s.value[t] {
      FirstIsLeast(s.delays[s.cur], s.value, t);
    }
  }

  // Of the tasks that are blocked, exactly those in `now` have been readied.
  ghost predicate Readied(s: TaskLists, r: TaskLists, now: iset<Task>) {
    && r.place.Keys == s.place.Keys
    && forall t :: t in s.place ==>
         (t in s.priority && r.place[t] == if t in now && s.Blocked(t) then Ready(s.priority[t]) else s.place[t])
  }

  // The tasks that want to wake at the unbounded tick `at`, and at or before it.
  ghost function WantsAt(s: TaskLists, at: nat): iset<Task> { iset t | t in s.due && s.due[t] == at }

  ghost function WantsBy(s: TaskLists, at: nat): iset<Task> { iset t | t in s.due && s.due[t] <= at }

  // The promise of the tick: it unblocks exactly the tasks whose wake time has come on the unbounded
  // clock, and keeps the invariant of the lists, across any number of wraps. No wake time is before the
  // clock, and none is at the clock just after a tick; so these are the tasks that want to wake at this
  // very tick and those that blocked for no time since the last one.
  lemma TickIsExact(s: TaskLists)
    requires Struct(s, {}, Earliest(s)) && NextIsEarly(s)
    ensures Struct(Tick(s), {}, Earliest(Tick(s))) && NextIsEarly(Tick(s))
    ensures Tick(s).Clock() == s.Clock() + 1
    ensures Readied(s, Tick(s), WantsAt(s, s.Clock()) + WantsAt(s, s.Clock() + 1))
    ensures NoneBefore(s, s.Clock()) && NoneBefore(Tick(s), Tick(s).Clock() + 1)
    ensures SameButTime(s, Tick(s)) && EventsLeft(s, Tick(s))
  {
    hide ListsMatch, TasksPlaced, EventsMatch, WakesFrom, NextIsEarly, Tick;
    TickReadies(s);
    TickBelow(s, Earliest(s));
    ClockIsLeast(s, Earliest(s));
    ClockIsLeast(Tick(s), Tick(s).tick + 1);
    EarlierFrom(Tick(s));
  }

  lemma TickReadies(s: TaskLists)
    requires Struct(s, {}, Earliest(s)) && NextIsEarly(s)
    ensures Struct(Tick(s), {}, Tick(s).tick + 1) && NextIsEarly(Tick(s)) && Tick(s).tick < N
    ensures Tick(s).Clock() == s.Clock() + 1
    ensures Readied(s, Tick(s), WantsBy(s, s.Clock() + 1))
    ensures SameButTime(s, Tick(s)) && EventsLeft(s, Tick(s))
  {
    hide ListsMatch, TasksPlaced, EventsMatch, DelaysInOrder, NextIsEarly, WakesFrom;
    DueIsNow(s);
    AdvanceKeeps(s);
    AdvanceFrame(s);
    var a := Advance(s);
    if a.tick >= a.next {
      PopDueWakes(a);
    } else {
      StopKeeps(a, a.next);
    }
    TickBelow(Tick(s), Tick(s).tick + 1);
    hide Advance;
  }

  lemma TickBelow(s: TaskLists, from: nat)
    requires Struct(s, {}, from)
    ensures s.tick < N
  {
  }

  ghost predicate NoneBefore(s: TaskLists, at: nat) {
    forall t :: s.Blocked(t) && t in s.due ==> at <= s.due[t]
  }

  lemma ClockIsLeast(s: TaskLists, from: nat)
    requires Struct(s, {}, from) && s.tick <= from <= N
    ensures NoneBefore(s, s.epoch * N + from)
  {
    hide ReadyHold, DelaysHold, Holds, DelaysInOrder, TasksPlaced, EventsMatch;
  }

  lemma EarlierFrom(s: TaskLists)
    requires Struct(s, {}, s.tick + 1)
    ensures Struct(s, {}, Earliest(s))
  {
    hide ReadyHold, DelaysHold, Holds, DelaysInOrder, TasksPlaced, EventsMatch;
  }

  lemma AdvanceFrame(s: TaskLists)
    requires s.cur < 2 && DelaysInOrder(s.delays, s.value) && EventsMatch(s)
    ensures var a := Advance(s);
      && a == s.(tick := a.tick, epoch := a.epoch, cur := a.cur, next := a.next)
      && EventsLeft(s, a)
  {
  }

  ghost predicate SameButTime(s: TaskLists, r: TaskLists) {
    r == s.(tick := r.tick, epoch := r.epoch, cur := r.cur, next := r.next, delays := r.delays,
            ready := r.ready, top := r.top, place := r.place, onEvent := r.onEvent, pending := r.pending)
  }

  // After the tick has moved on, being due by the 16-bit comparison is being due by the clock.
  lemma DueIsNow(s: TaskLists)
    requires Struct(s, {}, Earliest(s)) && NextIsEarly(s)
    ensures s.cur < 2 && DelaysInOrder(s.delays, s.value) && Advance(s).next < N
    ensures forall t :: t in s.place ==> t in s.priority
    ensures var a := Advance(s); forall t :: t in s.place ==>
      && (Due(a, t) <==> s.Blocked(t) && t in s.due && s.due[t] <= s.Clock() + 1)
      && (s.place[t] == Delay(a.cur) ==> t in a.value && a.next <= a.value[t])
  {
    AdvanceKeeps(s);
    var a := Advance(s);
    forall t | t in s.place && s.place[t] == Delay(a.cur) ensures t in a.delays[a.cur] {
      assert Holds(a.delays[a.cur], a.place, Delay(a.cur));
    }
    hide ReadyHold, DelaysHold, Holds, DelaysInOrder, TasksPlaced, EventsMatch;
  }

  // Whether the loop of xTaskIncrementTick readies a task that is not below the running one.
  predicate PopSwitches(s: TaskLists)
    requires Struct(s, {}, 0)
    decreases |s.delays[s.cur]|
  {
    var q := s.delays[s.cur];
    q != [] &&
      (PopStep(s);
       s.value[q[0]] <= s.tick && (NotBelow(s, q[0]) || PopSwitches(Wake(s, q[0]))))
  }

  lemma {:induction false} PopSwitchesMeaning(s: TaskLists)
    requires Struct(s, {}, 0)
    ensures PopSwitches(s) <==> exists t :: NotBelow(s, t) && Due(s, t)
    decreases |s.delays[s.cur]|
  {
    hide ReadyHold, DelaysHold, Holds, TasksPlaced, EventsMatch, WakesFrom, NextIsEarly;
    var q := s.delays[s.cur];
    if q == [] {
      NoneLeft(s);
    } else {
      PopStep(s);
      if s.tick < s.value[q[0]] {
        StructInOrder(s);
        NoneDue(s);
      } else {
        PopSwitchesMeaning(Wake(s, q[0]));
        assert forall t :: Due(s, t) <==> t == q[0] || Due(Wake(s, q[0]), t);
        assert forall t :: NotBelow(s, t) <==> NotBelow(Wake(s, q[0]), t);
      }
    }
  }

  lemma StructInOrder(s: TaskLists)
    requires Struct(s, {}, 0)
    ensures DelaysInOrder(s.delays, s.value)
  {
  }
}
