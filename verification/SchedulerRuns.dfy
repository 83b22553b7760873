// Suspension of the scheduler and the steps it takes, one critical section each, with what holds
// over every run of them.
//
// `interrupts` and `lost` are history: how many tick interrupts were taken, and how often the
// 8-bit count of pended ticks has wrapped.
module SchedulerRuns {
  import opened Rings
  import opened Scheduler

  const PEND_RANGE: nat := 0x100   // uxPendedTicks is an unsigned char

  datatype Sched = Sched(
    lists: TaskLists,
    suspended: nat,               // uxSchedulerSuspended
    pended: nat,                  // uxPendedTicks
    yieldPending: bool,           // xYieldPending
    deleted: nat,                 // uxTasksDeleted
    interrupts: nat, lost: nat)

  ghost predicate Sound(l: TaskLists) {
    Struct(l, {}, Earliest(l)) && NextIsEarly(l)
  }

  // No tick interrupt goes missing, except 256 at a time when uxPendedTicks wraps.
  ghost predicate TicksAccounted(s: Sched) {
    && s.pended < PEND_RANGE
    && s.interrupts == s.lists.Clock() + s.pended + PEND_RANGE * s.lost
  }

  ghost predicate Inv(s: Sched) {
    && Sound(s.lists) && TicksAccounted(s)
    && (s.suspended == 0 ==> s.lists.pending == [] && s.pended == 0)
  }

  // ---------------------------------------------------------------- resuming the scheduler

  // The first loop of xTaskResumeAll: ready what was held back.
  function DrainPending(s: Sched): Sched
    requires Sound(s.lists)
    decreases |s.lists.pending|
  {
    if s.lists.pending == [] then s else
      DrainStep(s.lists);
      DrainPending(Drained(s))
  }

  // One turn of that loop.
  function Drained(s: Sched): Sched
    requires Sound(s.lists) && s.lists.pending != []
  {
    var l := s.lists;
    DrainStep(l);
    var t := l.pending[0];
    s.(lists := Wake(l, t), yieldPending := s.yieldPending || l.priority[t] >= l.priority[l.current])
  }

  lemma DrainStep(l: TaskLists)
    requires Sound(l) && l.pending != []
    ensures var t := l.pending[0];
      && t in l.place && l.Blocked(t) && t in l.priority && l.current in l.priority
      && var w := Wake(l, t);
      && Sound(w) && w.pending == l.pending[1..] && SameButLists(l, w)
      && w.place == l.place[t := Ready(l.priority[t])]
  {
    hide ReadyHold, DelaysHold, Holds, TasksPlaced, EventsMatch, WakesFrom, NextIsEarly;
    PendingHead(l);
    WakeKeeps(l, l.pending[0], Earliest(l));
  }

  lemma PendingHead(l: TaskLists)
    requires TasksPlaced(l, {}) && EventsMatch(l) && l.pending != []
    ensures var t := l.pending[0]; t in l.place && l.Blocked(t) && t in l.priority && l.current in l.priority
    ensures Without(l.pending, l.pending[0]) == l.pending[1..]
  {
    assert l.pending[0] in l.pending;
  }

  // Whether the tick itself asks for a context switch.
  predicate TickSwitches(l: TaskLists)
    requires Sound(l)
  {
    AdvanceKeeps(l);
    RunningHasList(l);
    var a := Advance(l);
    || (a.tick >= a.next && PopSwitches(a))
    || |Tick(l).ready[l.priority[l.current]].items| > 1
  }

  // It does when it readies a task that is not below the running one, or when the running task
  // shares its priority with another ready one.
  lemma TickSwitchesMeaning(l: TaskLists)
    requires Sound(l)
    ensures l.current in l.priority && l.priority[l.current] < |Tick(l).ready|
    ensures TickSwitches(l) <==>
      || (exists t :: NotBelow(l, t) && l.Blocked(t) && t in l.due && l.due[t] <= l.Clock() + 1)
      || |Tick(l).ready[l.priority[l.current]].items| > 1
  {
    hide ReadyHold, DelaysHold, Holds, TasksPlaced, EventsMatch, WakesFrom, NextIsEarly, Tick;
    AdvanceKeeps(l);
    RunningHasList(l);
    DueIsNow(l);
    var a := Advance(l);
    PopSwitchesMeaning(a);
    AdvanceFrame(l);
    assert forall t :: Due(a, t) ==> t in l.place;
  }

  lemma RunningHasList(l: TaskLists)
    requires Sound(l)
    ensures l.current in l.priority && l.priority[l.current] < |Tick(l).ready|
  {
    TickIsExact(l);
    hide DelaysHold, Holds, EventsMatch, WakesFrom, NextIsEarly;
  }

  // The second loop of xTaskResumeAll: the ticks that were held back.
  function RunPended(s: Sched): Sched
    requires Sound(s.lists)
    decreases s.pended
  {
    if s.pended == 0 then s else
      TickIsExact(s.lists);
      RunningHasList(s.lists);
      RunPended(s.(lists := Tick(s.lists), pended := s.pended - 1,
                   yieldPending := s.yieldPending || TickSwitches(s.lists)))
  }

  function ResumeAll(s: Sched): Sched
    requires Sound(s.lists) && s.suspended > 0
  {
    var r := s.(suspended := s.suspended - 1);
    if r.suspended > 0 then r else
      DrainKeeps(r);
      RunPended(DrainPending(r))
  }

  ghost function Elements(q: seq<Task>): iset<Task> { iset t | t in q }

  lemma ReadiedNone(l: TaskLists, now: iset<Task>)
    requires Sound(l)
    requires forall t :: t in now ==> !l.Blocked(t)
    ensures Readied(l, l, now)
  {
    hide ListsMatch, EventsMatch, NextIsEarly, DelaysInOrder;
  }

  lemma ReadiedBoth(l: TaskLists, m: TaskLists, r: TaskLists, a: iset<Task>, b: iset<Task>)
    requires Readied(l, m, a) && Readied(m, r, b) && m.priority == l.priority
    ensures Readied(l, r, a + b)
  {
  }

  // The first loop readies exactly the tasks that were held back.
  lemma {:induction false} DrainKeeps(s: Sched)
    requires Sound(s.lists)
    ensures var r := DrainPending(s);
      && Sound(r.lists) && r.lists.pending == [] && SameButLists(s.lists, r.lists)
      && Readied(s.lists, r.lists, Elements(s.lists.pending))
      && r == s.(lists := r.lists, yieldPending := r.yieldPending)
    decreases |s.lists.pending|
  {
    hide Sound, Readied, Drained, Elements;
    var l := s.lists;
    if l.pending == [] {
      NoElements(l);
    } else {
      DrainedKeeps(s);
      DrainKeeps(Drained(s));
      ReadiedBoth(l, Drained(s).lists, DrainPending(s).lists, iset{l.pending[0]}, Elements(l.pending[1..]));
      HeadElement(l.pending);
    }
  }

  lemma NoElements(l: TaskLists)
    requires Sound(l)
    ensures Readied(l, l, Elements([]))
  {
    ReadiedNone(l, Elements([]));
  }

  lemma HeadElement(q: seq<Task>)
    requires q != []
    ensures iset{q[0]} + Elements(q[1..]) == Elements(q)
  {
  }

  lemma DrainedKeeps(s: Sched)
    requires Sound(s.lists) && s.lists.pending != []
    ensures var r := Drained(s);
      && Sound(r.lists) && r.lists.pending == s.lists.pending[1..] && SameButLists(s.lists, r.lists)
      && Readied(s.lists, r.lists, iset{s.lists.pending[0]})
      && r == s.(lists := r.lists, yieldPending := r.yieldPending)
  {
    hide ListsMatch, TasksPlaced, EventsMatch, WakesFrom, NextIsEarly, Wake;
    DrainStep(s.lists);
    ReadiedOne(s.lists, Wake(s.lists, s.lists.pending[0]), s.lists.pending[0]);
  }

  lemma ReadiedOne(l: TaskLists, w: TaskLists, t: Task)
    requires Sound(l) && l.Blocked(t) && w.place == l.place[t := Ready(l.priority[t])]
    ensures Readied(l, w, iset{t})
  {
    hide ListsMatch, EventsMatch, NextIsEarly, WakesFrom;
  }

  // The tasks whose wake time n more ticks reach.
  ghost function Reached(l: TaskLists, n: nat): iset<Task> { if n == 0 then iset{} else WantsBy(l, l.Clock() + n) }

  // The second loop readies exactly the tasks whose wake time the pended ticks reach.
  lemma {:induction false} RunPendedKeeps(s: Sched)
    requires Sound(s.lists)
    ensures var r := RunPended(s);
      && Sound(r.lists) && r.lists.Clock() == s.lists.Clock() + s.pended
      && SameButTime(s.lists, r.lists) && (s.lists.pending == [] ==> r.lists.pending == [])
      && Readied(s.lists, r.lists, Reached(s.lists, s.pended))
      && r == s.(lists := r.lists, pended := 0, yieldPending := r.yieldPending)
    decreases s.pended
  {
    hide TickSwitches, Tick, ListsMatch, TasksPlaced, EventsMatch, WakesFrom, NextIsEarly;
    var l := s.lists;
    if s.pended == 0 {
      ReadiedNone(l, Reached(l, 0));
    } else {
      TickIsExact(l);
      RunningHasList(l);
      var m := Tick(l);
      RunPendedKeeps(s.(lists := m, pended := s.pended - 1, yieldPending := s.yieldPending || TickSwitches(l)));
      var now := WantsAt(l, l.Clock()) + WantsAt(l, l.Clock() + 1);
      ReadiedBoth(l, m, RunPended(s).lists, now, Reached(m, s.pended - 1));
      ReachedBy(l, m, RunPended(s).lists, now, s.pended);
    }
  }

  lemma ReachedBy(l: TaskLists, m: TaskLists, r: TaskLists, now: iset<Task>, n: nat)
    requires n > 0 && NoneBefore(l, l.Clock()) && now == WantsAt(l, l.Clock()) + WantsAt(l, l.Clock() + 1)
    requires Sound(l) && m.due == l.due && m.Clock() == l.Clock() + 1
    requires Readied(l, r, now + Reached(m, n - 1))
    ensures Readied(l, r, Reached(l, n))
  {
    hide ListsMatch, TasksPlaced, EventsMatch, NextIsEarly, DelaysInOrder;
  }

  // Resuming the scheduler readies exactly the tasks that were held back and those whose wake
  // time the pended ticks reach, and leaves nothing pended.
  lemma ResumeIsExact(s: Sched)
    requires Sound(s.lists) && s.suspended == 1
    ensures var r := ResumeAll(s); var l := s.lists;
      && Sound(r.lists) && r.suspended == 0 && r.pended == 0 && r.lists.pending == []
      && r.lists.Clock() == l.Clock() + s.pended
      && Readied(l, r.lists, Elements(l.pending) + Reached(l, s.pended))
      && r.lists.due == l.due && r.lists.priority == l.priority
      && r == s.(lists := r.lists, suspended := 0, pended := 0, yieldPending := r.yieldPending)
  {
    hide Sound;
    var m := s.(suspended := 0);
    DrainKeeps(m);
    var d := DrainPending(m);
    RunPendedKeeps(d);
    ReadiedBoth(s.lists, d.lists, RunPended(d).lists, Elements(s.lists.pending),
                Reached(s.lists, s.pended));
  }

  // ---------------------------------------------------------------- choosing the next task

  ghost predicate SomeReady(l: TaskLists) {
    exists t :: l.IsReady(t)
  }

  // The loop of taskSELECT_HIGHEST_PRIORITY_TASK.
  function HighestReady(ready: seq<Ring<Task>>, top: nat): (p: nat)
    requires top < |ready| && exists q :: 0 <= q <= top && ready[q].items != []
    ensures p <= top && ready[p].items != [] && forall q :: p < q <= top ==> ready[q].items == []
  {
    if ready[top].items != [] then top else HighestReady(ready, top - 1)
  }

  function SelectTask(l: TaskLists): TaskLists
    requires Sound(l) && SomeReady(l)
  {
    TopCoversReady(l);
    var p := HighestReady(l.ready, l.top);
    var r := l.ready[p].Next();
    l.(top := p, ready := l.ready[p := r], current := r.Current())
  }

  lemma TopCoversReady(l: TaskLists)
    requires Sound(l) && SomeReady(l)
    ensures |l.ready| == PRIORITIES && l.top < PRIORITIES
    ensures exists q :: 0 <= q <= l.top && l.ready[q].items != []
    ensures forall q :: 0 <= q < PRIORITIES ==> l.ready[q].Valid()
  {
    var t :| l.IsReady(t);
    var q := l.place[t].list;
    assert Holds(l.ready[q].items, l.place, Ready(q));
    hide DelaysHold, EventsMatch, WakesFrom, NextIsEarly;
  }

  // The wake times do not depend on which task runs, nor the blocked tasks on the ready lists.
  lemma SameWakes(l: TaskLists, r: TaskLists)
    requires WakesFrom(l, Earliest(l)) && l.cur < 2 && NextIsEarly(l)
    requires r == l.(top := r.top, ready := r.ready, current := r.current, onEvent := r.onEvent, pending := r.pending,
                     priority := r.priority, tasks := r.tasks)
    ensures WakesFrom(r, Earliest(r)) && NextIsEarly(r)
  {
  }

  lemma SameEvents(l: TaskLists, r: TaskLists)
    requires EventsMatch(l)
    requires r.onEvent == l.onEvent && r.pending == l.pending && r.place == l.place
    ensures EventsMatch(r)
  {
  }

  lemma NextKeepsReady(ready: seq<Ring<Task>>, place: map<Task, Place>, p: nat)
    requires ReadyHold(ready, place) && p < PRIORITIES && ready[p].items != []
    ensures ReadyHold(ready[p := ready[p].Next()], place)
    ensures ready[p].Next().index > 0
    ensures var t := ready[p].Next().Current(); t in place && place[t] == Ready(p)
  {
    assert Holds(ready[p].items, place, Ready(p));
    assert ready[p].Next().Current() in ready[p].items;
  }

  lemma SelectKeepsReady(l: TaskLists)
    requires Sound(l) && SomeReady(l)
    ensures ReadyHold(SelectTask(l).ready, l.place)
    ensures SelectTask(l).IsReady(SelectTask(l).current) && SelectTask(l).current in l.priority
    ensures SelectTask(l).top < PRIORITIES
    ensures forall p :: SelectTask(l).top < p < PRIORITIES ==> SelectTask(l).ready[p].items == []
  {
    TopCoversReady(l);
    hide ReadyHold, DelaysHold, Holds, EventsMatch, WakesFrom, NextIsEarly;
    NextKeepsReady(l.ready, l.place, HighestReady(l.ready, l.top));
  }

  lemma SelectKeeps(l: TaskLists)
    requires Sound(l) && SomeReady(l)
    ensures Sound(SelectTask(l)) && SelectTask(l).IsReady(SelectTask(l).current)
    ensures SelectTask(l)
         == l.(top := SelectTask(l).top, ready := SelectTask(l).ready, current := SelectTask(l).current)
  {
    hide ReadyHold, DelaysHold, Holds, EventsMatch, WakesFrom, NextIsEarly;
    TopCoversReady(l);
    SelectKeepsReady(l);
    SameWakes(l, SelectTask(l));
    SameEvents(l, SelectTask(l));
  }

  // vTaskSwitchContext picks a ready task that no ready task is above, the next in its ring.
  lemma SwitchPicksHighest(l: TaskLists)
    requires Sound(l) && SomeReady(l)
    ensures var r := SelectTask(l); r.current in l.priority && l.IsReady(r.current)
    ensures var r := SelectTask(l);
      forall t :: l.IsReady(t) ==> t in l.priority && l.priority[t] <= l.priority[r.current]
    ensures var r := SelectTask(l);
      && r.top == l.priority[r.current]
      && l.ready[r.top].Valid() && l.ready[r.top].items != [] && r.current == l.ready[r.top].Next().Current()
  {
    TopCoversReady(l);
    var r := SelectTask(l);
    hide DelaysHold, EventsMatch, WakesFrom, NextIsEarly;
    assert Holds(l.ready[r.top].items, l.place, Ready(r.top));
    assert r.current in l.ready[r.top].items;
    forall t | l.IsReady(t) ensures t in l.priority && l.priority[t] <= r.top {
      assert Holds(l.ready[l.priority[t]].items, l.place, Ready(l.priority[t]));
    }
  }

  // ---------------------------------------------------------------- the steps

  datatype Step =
    | Create(t: Task, p: nat)                 // xTaskCreate
    | BlockFor(ticks: nat, onEvent: bool)     // vTaskDelay, or blocking with an event list
    | EventHead(t: Task)                      // xTaskRemoveFromEventList
    | UnorderedEvent(t: Task)                 // xTaskRemoveFromUnorderedEventList
    | TickInterrupt                           // xTaskIncrementTick
    | SuspendAll                              // vTaskSuspendAll
    | ResumeScheduler                         // xTaskResumeAll
    | SwitchContext                           // vTaskSwitchContext
    | Delete(t: Task)                         // vTaskDelete
    | ResetUnblockTime                        // prvResetNextTaskUnblockTime
    | Reap                                    // one round of prvCheckTasksWaitingTermination
    | SetPriority(t: Task, p: nat)            // vTaskPriorityInherit, xTaskPriorityDisinherit

  // Callers ask for no time only just after a wrap (Timeouts.NothingLeft), so not at the last tick.
  predicate MayBlockFor(l: TaskLists, ticks: nat) { InWindow(l, l.Clock() + ticks) }

  // Enabled contains the invariant so that Apply, whose functions need it, can be written down. It does
  // not restrict runs: InitialInv and StepKeepsInv show that it holds wherever it is asked for.
  ghost predicate Enabled(s: Sched, step: Step) {
    var l := s.lists;
    Inv(s) &&
    match step
    case Create(t, p) => t !in l.priority
    case BlockFor(ticks, onEvent) => l.IsReady(l.current) && MayBlockFor(l, ticks)
    case EventHead(t) => t in l.onEvent
    case UnorderedEvent(t) => t in l.onEvent && s.suspended > 0
    case TickInterrupt => true
    case SuspendAll => true
    case ResumeScheduler => s.suspended > 0
    case SwitchContext => SomeReady(l)
    case Delete(t) => t in l.place
    case ResetUnblockTime => true
    case Reap => s.deleted > 0 && (l.terminated != [] ==> l.terminated[0] != l.current)
    case SetPriority(t, p) => t in l.priority && p < PRIORITIES && p != l.priority[t]
  }

  // prvAddTaskToReadyList for a new task; its priority is cut to the greatest there is.
  function AddNew(l: TaskLists, t: Task, p: nat): TaskLists
    requires ListsMatch(l) && TasksPlaced(l, {}) && t !in l.priority
  {
    var q := if p >= PRIORITIES then PRIORITIES - 1 else p;
    NewInHand(l, t, q);
    AddReady(l.(priority := l.priority[t := q], tasks := l.tasks + 1), t)
  }

  // The running task leaves its ready list for a delayed list.
  function Block(l: TaskLists, ticks: nat, onEvent: bool): TaskLists
    requires Sound(l) && l.IsReady(l.current)
  {
    TakeOutKeeps(l, l.current, Earliest(l));
    var b := AddDelayed(TakeOut(l, l.current), l.current, l.Clock() + ticks);
    if onEvent then b.(onEvent := b.onEvent + {l.current}) else b
  }

  // A task with a changed priority moves to the ready list of the new one, if it is ready.
  function Reprioritise(l: TaskLists, t: Task, p: nat): TaskLists
    requires Sound(l) && t in l.priority && p < PRIORITIES
  {
    if l.IsReady(t) then
      TakeOutKeepsLists(l, t);
      PriorityInHand(TakeOut(l, t), t, p);
      AddReady(TakeOut(l, t).(priority := l.priority[t := p]), t)
    else l.(priority := l.priority[t := p])
  }

  // The idle task frees the first task that waits for termination.
  function Free(l: TaskLists, t: Task): TaskLists
    requires Sound(l) && t in l.place && l.tasks > 0
  {
    TakeOut(l, t).(priority := l.priority - {t}, tasks := l.tasks - 1)
  }

  function ResetNext(l: TaskLists): TaskLists
    requires Sound(l)
  {
    l.(next := FirstWake(l))
  }

  // ---------------------------------------------------------------- every step keeps the lists sound

  lemma NewInHand(l: TaskLists, t: Task, p: nat)
    requires TasksPlaced(l, {}) && t !in l.priority && p < PRIORITIES
    ensures TasksPlaced(l.(priority := l.priority[t := p], tasks := l.tasks + 1), {t})
  {
  }

  lemma AddNewKeeps(l: TaskLists, t: Task, p: nat)
    requires Sound(l) && t !in l.priority
    ensures Sound(AddNew(l, t, p)) && AddNew(l, t, p).Clock() == l.Clock() && AddNew(l, t, p).pending == l.pending
  {
    hide ReadyHold, DelaysHold, Holds, TasksPlaced, EventsMatch, WakesFrom, NextIsEarly;
    var cut := if p >= PRIORITIES then PRIORITIES - 1 else p;
    NewInHand(l, t, cut);
    var m := l.(priority := l.priority[t := cut], tasks := l.tasks + 1);
    SameWakes(l, m);
    SameEvents(l, m);
    AddReadyKeeps(m, t, Earliest(l));
  }

  lemma BlockKeeps(l: TaskLists, ticks: nat, onEvent: bool)
    requires Sound(l) && l.IsReady(l.current) && MayBlockFor(l, ticks)
    ensures Sound(Block(l, ticks, onEvent)) && Block(l, ticks, onEvent).Clock() == l.Clock()
    ensures l.pending == [] ==> Block(l, ticks, onEvent).pending == []
  {
    hide ReadyHold, DelaysHold, Holds, TasksPlaced, EventsMatch, WakesFrom, NextIsEarly;
    var t := l.current;
    TakeOutKeeps(l, t, Earliest(l));
    var u := TakeOut(l, t);
    AddDelayedFits(u);
    AddDelayedKeeps(u, t, l.Clock() + ticks);
    JoinsEvent(l, AddDelayed(u, t, l.Clock() + ticks), t);
  }

  lemma JoinsEvent(l: TaskLists, b: TaskLists, t: Task)
    requires EventsMatch(l) && l.IsReady(t) && Sound(b) && b.Blocked(t)
    requires b.onEvent == l.onEvent - {t} && b.pending == Without(l.pending, t)
    ensures Sound(b.(onEvent := b.onEvent + {t}))
  {
    hide ReadyHold, DelaysHold, Holds, TasksPlaced, EventsMatch, WakesFrom, NextIsEarly;
    var e := b.(onEvent := b.onEvent + {t});
    JoinEvent(l, b, t);
    SameWakes(b, e);
    SamePlaces(b, e);
  }

  lemma AddDelayedFits(u: TaskLists)
    requires ListsMatch(u) && WakesFrom(u, Earliest(u))
    ensures u.cur < 2 && DelaysInOrder(u.delays, u.value)
  {
  }

  lemma SamePlaces(l: TaskLists, r: TaskLists)
    requires ListsMatch(l) && TasksPlaced(l, {}) && r == l.(onEvent := r.onEvent, pending := r.pending)
    ensures ListsMatch(r) && TasksPlaced(r, {})
  {
  }

  lemma JoinEvent(l: TaskLists, b: TaskLists, t: Task)
    requires EventsMatch(l) && l.IsReady(t) && EventsMatch(b) && b.Blocked(t)
    requires b.onEvent == l.onEvent - {t} && b.pending == Without(l.pending, t)
    ensures EventsMatch(b.(onEvent := b.onEvent + {t}))
  {
    WithoutFacts(l.pending, t);
  }

  lemma FreedFromHand(u: TaskLists, t: Task)
    requires TasksPlaced(u, {t}) && t != u.current
    ensures u.tasks > 0 && TasksPlaced(u.(priority := u.priority - {t}, tasks := u.tasks - 1), {})
  {
    assert (u.priority - {t}).Keys == u.priority.Keys - {t};
  }

  lemma FreeKeeps(l: TaskLists, t: Task)
    requires Sound(l) && t in l.place && t != l.current
    ensures l.tasks > 0 && Sound(Free(l, t)) && Free(l, t).Clock() == l.Clock()
    ensures l.pending == [] ==> Free(l, t).pending == []
  {
    hide ReadyHold, DelaysHold, Holds, TasksPlaced, EventsMatch, WakesFrom, NextIsEarly;
    TakeOutKeeps(l, t, Earliest(l));
    var u := TakeOut(l, t);
    FreedFromHand(u, t);
    var f := Free(l, t);
    SameWakes(u, f);
    SameEvents(u, f);
  }

  lemma PriorityInHand(u: TaskLists, t: Task, p: nat)
    requires TasksPlaced(u, {t}) && p < PRIORITIES
    ensures TasksPlaced(u.(priority := u.priority[t := p]), {t})
  {
    assert u.priority[t := p].Keys == u.priority.Keys;
  }

  lemma PriorityElsewhere(l: TaskLists, t: Task, p: nat)
    requires TasksPlaced(l, {}) && t in l.priority && !l.IsReady(t) && p < PRIORITIES
    ensures TasksPlaced(l.(priority := l.priority[t := p]), {})
  {
    assert l.priority[t := p].Keys == l.priority.Keys;
  }

  lemma ReprioritiseKeeps(l: TaskLists, t: Task, p: nat)
    requires Sound(l) && t in l.priority && p < PRIORITIES
    ensures Sound(Reprioritise(l, t, p)) && Reprioritise(l, t, p).Clock() == l.Clock()
    ensures l.pending == [] ==> Reprioritise(l, t, p).pending == []
  {
    hide ReadyHold, DelaysHold, Holds, TasksPlaced, EventsMatch, WakesFrom, NextIsEarly;
    if l.IsReady(t) {
      TakeOutKeeps(l, t, Earliest(l));
      var u := TakeOut(l, t);
      PriorityInHand(u, t, p);
      var v := u.(priority := u.priority[t := p]);
      SameWakes(u, v);
      SameEvents(u, v);
      AddReadyKeeps(v, t, Earliest(l));
    } else {
      var v := l.(priority := l.priority[t := p]);
      PriorityElsewhere(l, t, p);
      SameWakes(l, v);
      SameEvents(l, v);
    }
  }

  lemma ResetNextKeeps(l: TaskLists)
    requires Sound(l)
    ensures Sound(ResetNext(l)) && ResetNext(l).Clock() == l.Clock() && ResetNext(l).pending == l.pending
  {
    hide ReadyHold, DelaysHold, Holds, DelaysInOrder;
    var q := l.delays[l.cur];
    if q != [] {
      HeadFacts(l);
      HeadIsLeast(l);
    }
  }

  lemma HeadIsLeast(l: TaskLists)
    requires l.cur < 2 && DelaysInOrder(l.delays, l.value) && l.delays[l.cur] != []
    ensures var q := l.delays[l.cur];
      q[0] in l.value && forall t :: t in q ==> t in l.value && l.value[q[0]] <= l.value[t]
  {
    var q := l.delays[l.cur];
    forall t | t in q ensures t in l.value && l.value[q[0]] <= l.value[t] { FirstIsLeast(q, l.value, t); }
  }

  // ---------------------------------------------------------------- runs

  function Apply(s: Sched, step: Step): Sched
    requires Enabled(s, step)
  {
    hide ReadyHold, DelaysHold, Holds, TasksPlaced, EventsMatch, WakesFrom, NextIsEarly;
    var l := s.lists;
    match step
    case Create(t, p) => s.(lists := AddNew(l, t, p))
    case BlockFor(ticks, onEvent) => s.(lists := Block(l, ticks, onEvent))
    case EventHead(t) =>
      EventTask(l, t);
      s.(lists := if s.suspended == 0 then Wake(l, t) else l.(onEvent := l.onEvent - {t}, pending := l.pending + [t]),
         yieldPending := s.yieldPending || l.priority[t] > l.priority[l.current])
    case UnorderedEvent(t) =>
      EventTask(l, t);
      s.(lists := Wake(l, t), yieldPending := s.yieldPending || l.priority[t] > l.priority[l.current])
    case TickInterrupt => Ticked(s.(interrupts := s.interrupts + 1))
    case SuspendAll => s.(suspended := s.suspended + 1)
    case ResumeScheduler => ResumeAll(s)
    case SwitchContext => Switched(s)
    case Delete(t) =>
      TakeOutKeepsLists(l, t);
      s.(lists := AddTerminated(TakeOut(l, t), t), deleted := s.deleted + 1)
    case ResetUnblockTime => s.(lists := ResetNext(l))
    case Reap =>
      if l.terminated == [] then s else Freed(s)
    case SetPriority(t, p) => s.(lists := Reprioritise(l, t, p))
  }

  // vTaskSwitchContext
  function Switched(s: Sched): Sched
    requires Sound(s.lists) && SomeReady(s.lists)
  {
    if s.suspended > 0 then s.(yieldPending := true) else s.(lists := SelectTask(s.lists), yieldPending := false)
  }

  // The critical section of prvCheckTasksWaitingTermination.
  function Freed(s: Sched): Sched
    requires Sound(s.lists) && s.lists.terminated != [] && s.deleted > 0
  {
    TerminatedHead(s.lists);
    s.(lists := Free(s.lists, s.lists.terminated[0]), deleted := s.deleted - 1)
  }

  // xTaskIncrementTick
  function Ticked(s: Sched): Sched
    requires Sound(s.lists)
  {
    if s.suspended == 0 then s.(lists := Tick(s.lists))
    else if s.pended + 1 < PEND_RANGE then s.(pended := s.pended + 1)
    else s.(pended := 0, lost := s.lost + 1)
  }

  lemma EventTask(l: TaskLists, t: Task)
    requires TasksPlaced(l, {}) && EventsMatch(l) && t in l.onEvent
    ensures t in l.place && l.Blocked(t) && t in l.priority && l.current in l.priority && t !in l.pending
  {
  }

  lemma TerminatedHead(l: TaskLists)
    requires ListsMatch(l) && TasksPlaced(l, {}) && l.terminated != []
    ensures l.terminated[0] in l.place && l.place[l.terminated[0]] == Terminated && l.tasks > 0
  {
    assert l.terminated[0] in l.terminated;
    assert l.terminated[0] in l.priority;
    hide ReadyHold, DelaysHold;
  }

  lemma HoldBack(l: TaskLists, t: Task)
    requires EventsMatch(l) && t in l.onEvent
    ensures EventsMatch(l.(onEvent := l.onEvent - {t}, pending := l.pending + [t]))
  {
    PasteFacts(l.pending, |l.pending|, t);
    assert Paste(l.pending, |l.pending|, t) == l.pending + [t];
  }

  lemma SoundEvents(l: TaskLists, r: TaskLists)
    requires Sound(l) && EventsMatch(r) && r == l.(onEvent := r.onEvent, pending := r.pending)
    ensures Sound(r)
  {
    hide ReadyHold, DelaysHold, Holds, TasksPlaced, EventsMatch, WakesFrom, NextIsEarly;
    SameWakes(l, r);
    SamePlaces(l, r);
  }

  // The inductive step: every step keeps the invariant.
  lemma StepKeepsInv(s: Sched, step: Step)
    requires Enabled(s, step)
    ensures Inv(Apply(s, step))
  {
    hide ListsMatch, TasksPlaced, EventsMatch, WakesFrom, NextIsEarly, AddNew, Block, Wake, Reprioritise, Free, Tick;
    var l := s.lists;
    match step
    case Create(t, p) => AddNewKeeps(l, t, p);
    case BlockFor(ticks, onEvent) => BlockKeeps(l, ticks, onEvent);
    case EventHead(t) =>
      EventTask(l, t);
      WakeKeeps(l, t, Earliest(l));
      WakeFrame(l, t);
      HoldBack(l, t);
      SoundEvents(l, l.(onEvent := l.onEvent - {t}, pending := l.pending + [t]));
    case UnorderedEvent(t) =>
      EventTask(l, t);
      WakeKeeps(l, t, Earliest(l));
      WakeFrame(l, t);
    case TickInterrupt => TickIsExact(l);
    case SuspendAll =>
    case ResumeScheduler => if s.suspended == 1 { ResumeIsExact(s); }
    case SwitchContext => if s.suspended == 0 { SelectKeeps(l); }
    case Delete(t) =>
      TakeOutKeeps(l, t, Earliest(l));
      AddTerminatedKeeps(TakeOut(l, t), t, Earliest(l));
    case ResetUnblockTime => ResetNextKeeps(l);
    case Reap => if l.terminated != [] { TerminatedHead(l); FreeKeeps(l, l.terminated[0]); }
    case SetPriority(t, p) => ReprioritiseKeeps(l, t, p);
  }

  // The kernel with its first task, the idle task, ready and running.
  function Initial(idle: Task): Sched {
    var empty := Ring([], 0);
    Sched(TaskLists(0, MAX_DELAY, [[], []], 0, [Ring([idle], 0), empty, empty, empty], 0, [], [],
                    map[idle := Ready(0)], map[], map[idle := 0], {}, idle, 1, 0, map[]),
          0, 0, false, 0, 0, 0)
  }

  lemma InitialInv(idle: Task)
    ensures Inv(Initial(idle))
  {
    InitialLists(idle);
    hide ListsMatch;
    var l := Initial(idle).lists;
    assert Values([], l.value) == [];
    assert map[idle := 0].Keys == {idle};
  }

  lemma InitialLists(idle: Task)
    ensures ListsMatch(Initial(idle).lists)
  {
    var l := Initial(idle).lists;
    assert Holds([idle], l.place, Ready(0));
    forall p | 1 <= p < PRIORITIES ensures Holds(l.ready[p].items, l.place, Ready(p)) { }
  }

  ghost predicate Runs(s: Sched, steps: seq<Step>)
    decreases |steps|
  {
    steps == [] || (Enabled(s, steps[0]) && Runs(Apply(s, steps[0]), steps[1..]))
  }

  function RunAll(s: Sched, steps: seq<Step>): Sched
    requires Runs(s, steps)
    decreases |steps|
  {
    if steps == [] then s else RunAll(Apply(s, steps[0]), steps[1..])
  }

  // Every reachable state keeps the invariant.
  lemma {:induction false} EveryRunKeepsInv(s: Sched, steps: seq<Step>)
    requires Inv(s) && Runs(s, steps)
    ensures Inv(RunAll(s, steps))
    decreases |steps|
  {
    if steps != [] {
      StepKeepsInv(s, steps[0]);
      EveryRunKeepsInv(Apply(s, steps[0]), steps[1..]);
    }
  }

  ghost predicate Reachable(s: Sched) {
    exists idle, steps :: Runs(Initial(idle), steps) && s == RunAll(Initial(idle), steps)
  }

  lemma ReachableInv(s: Sched)
    requires Reachable(s)
    ensures Inv(s)
  {
    var idle, steps :| Runs(Initial(idle), steps) && s == RunAll(Initial(idle), steps);
    InitialInv(idle);
    EveryRunKeepsInv(Initial(idle), steps);
    hide Inv, Runs, RunAll, Initial;
  }

  // In every reachable state a tick readies exactly the tasks whose time has come: those that want to
  // wake at this tick, and those that blocked for no time since the last one. Every blocked task has
  // its time less than one wrap ahead, and is on the current list if that time is in the present epoch
  // and on the overflow list if it is in the next.
  lemma EveryTickIsExact(s: Sched)
    requires Reachable(s)
    ensures Sound(s.lists)
    ensures Readied(s.lists, Tick(s.lists), WantsAt(s.lists, s.lists.Clock()) + WantsAt(s.lists, s.lists.Clock() + 1))
    ensures NoneBefore(Tick(s.lists), s.lists.Clock() + 2)
    ensures forall t :: s.lists.Blocked(t) ==> TimelyPlaced(s.lists, t)
  {
    hide Reachable, Struct, NextIsEarly;
    ReachableInv(s);
    TickIsExact(s.lists);
    forall t | s.lists.Blocked(t) ensures TimelyPlaced(s.lists, t) { WakeWindow(s.lists, t); }
  }

  ghost predicate TimelyPlaced(l: TaskLists, t: Task) {
    && |l.delays| == 2 && l.cur < 2 && t in l.due
    && l.Clock() <= l.due[t] < l.Clock() + N
    && (t in l.delays[l.cur] <==> l.due[t] / N == l.Clock() / N)
    && (t in l.delays[1 - l.cur] <==> l.due[t] / N == l.Clock() / N + 1)
  }

  lemma BlockedIsListed(l: TaskLists, t: Task)
    requires ListsMatch(l) && l.Blocked(t) && l.place[t].list < 2
    ensures t in l.delays[l.cur] <==> l.place[t].list == l.cur
    ensures t in l.delays[1 - l.cur] <==> l.place[t].list != l.cur
  {
    hide ReadyHold;
    assert Holds(l.delays[l.cur], l.place, Delay(l.cur));
    assert Holds(l.delays[1 - l.cur], l.place, Delay(1 - l.cur));
  }

  lemma WakeWindow(l: TaskLists, t: Task)
    requires Sound(l) && l.Blocked(t)
    ensures TimelyPlaced(l, t)
  {
    hide ReadyHold, DelaysHold, Holds, EventsMatch, NextIsEarly, DelaysInOrder;
    BlockedIsListed(l, t);
    Epochs(l.epoch, l.tick);
    Epochs(if l.place[t].list == l.cur then l.epoch else l.epoch + 1, l.value[t]);
  }

  lemma Epochs(epoch: nat, tick: nat)
    requires tick < N
    ensures (epoch * N + tick) / N == epoch
  {
  }

  // ---------------------------------------------------------------- conservation

  lemma {:induction false} NoDupSize(q: seq<Task>, elems: set<Task>)
    requires NoDup(q) && forall t :: t in q <==> t in elems
    ensures |q| == |elems|
  {
    if q == [] {
      assert elems == {};
    } else {
      var last := q[|q| - 1];
      NoDupSize(q[..|q| - 1], elems - {last});
    }
  }

  lemma Partition(whole: set<Task>, part: set<Task>)
    requires part <= whole
    ensures |whole| == |part| + |whole - part|
  {
    assert whole == part + (whole - part);
  }

  ghost function At(l: TaskLists, p: Place): set<Task> { set t | t in l.place && l.place[t] == p }

  ghost function ListAt(l: TaskLists, p: Place): seq<Task> {
    match p
    case Ready(k) => if k < |l.ready| then l.ready[k].items else []
    case Delay(k) => if k < |l.delays| then l.delays[k] else []
    case Terminated => l.terminated
  }

  ghost predicate OnOneList(l: TaskLists, t: Task) {
    exists p :: t in ListAt(l, p) && forall q :: t in ListAt(l, q) ==> q == p
  }

  // Each list holds tasks of the kernel, none of them twice, and a task on it is on no other.
  lemma ListHolds(l: TaskLists, p: Place)
    requires ListsMatch(l) && TasksPlaced(l, {})
    ensures NoDup(ListAt(l, p))
    ensures forall t :: t in ListAt(l, p) ==> t in l.priority && t in l.place && l.place[t] == p
  {
    match p
    case Ready(k) => if k < PRIORITIES { assert Holds(l.ready[k].items, l.place, p); }
    case Delay(k) => if k < 2 { assert Holds(l.delays[k], l.place, p); }
    case Terminated => assert Holds(l.terminated, l.place, p);
  }

  lemma TaskIsListed(l: TaskLists, t: Task)
    requires ListsMatch(l) && TasksPlaced(l, {}) && t in l.priority
    ensures t in l.place && t in ListAt(l, l.place[t])
  {
    match l.place[t]
    case Ready(k) => assert Holds(l.ready[k].items, l.place, Ready(k));
    case Delay(k) => assert Holds(l.delays[k], l.place, Delay(k));
    case Terminated =>
  }

  lemma EveryTaskOnOneList(l: TaskLists)
    requires ListsMatch(l) && TasksPlaced(l, {})
    ensures forall t :: t in l.priority ==> OnOneList(l, t)
    ensures forall p :: NoDup(ListAt(l, p))
    ensures forall p, t :: t in ListAt(l, p) ==> t in l.priority
  {
    hide ListsMatch, TasksPlaced, ListAt, NoDup;
    forall p ensures NoDup(ListAt(l, p)) { ListHolds(l, p); }
    forall p, t | t in ListAt(l, p) ensures t in l.priority { ListHolds(l, p); }
    forall t | t in l.priority ensures OnOneList(l, t) {
      TaskIsListed(l, t);
      forall q | t in ListAt(l, q) ensures q == l.place[t] { ListHolds(l, q); }
    }
  }

  // Every task of the kernel is on exactly one list, once, so that the lengths add up.
  lemma TasksConserved(s: Sched)
    requires Inv(s)
    ensures var l := s.lists;
      && |l.ready| == 4 && |l.delays| == 2
      && l.tasks == |l.ready[0].items| + |l.ready[1].items| + |l.ready[2].items| + |l.ready[3].items|
                    + |l.delays[0]| + |l.delays[1]| + |l.terminated|
      && l.tasks == |l.priority|
      && (forall t :: t in l.priority ==> OnOneList(l, t))
      && (forall p :: NoDup(ListAt(l, p)))
      && (forall p, t :: t in ListAt(l, p) ==> t in l.priority)
  {
    var l := s.lists;
    EveryTaskOnOneList(l);
    hide OnOneList, ListAt;
    forall p | 0 <= p < 4 ensures |l.ready[p].items| == |At(l, Ready(p))| {
      assert Holds(l.ready[p].items, l.place, Ready(p));
      NoDupSize(l.ready[p].items, At(l, Ready(p)));
    }
    forall k | 0 <= k < 2 ensures |l.delays[k]| == |At(l, Delay(k))| {
      assert Holds(l.delays[k], l.place, Delay(k));
      NoDupSize(l.delays[k], At(l, Delay(k)));
    }
    NoDupSize(l.terminated, At(l, Terminated));
    PlacesPartition(l);
  }

  ghost function Rest(l: TaskLists, ps: set<Place>): set<Task> { set t | t in l.place && l.place[t] !in ps }

  lemma SplitOff(l: TaskLists, ps: set<Place>, p: Place)
    requires p !in ps
    ensures |Rest(l, ps)| == |At(l, p)| + |Rest(l, ps + {p})|
  {
    assert Rest(l, ps) - At(l, p) == Rest(l, ps + {p});
    Partition(Rest(l, ps), At(l, p));
  }

  lemma PlacesPartition(l: TaskLists)
    requires TasksPlaced(l, {})
    ensures |l.priority| == |At(l, Ready(0))| + |At(l, Ready(1))| + |At(l, Ready(2))| + |At(l, Ready(3))|
                            + |At(l, Delay(0))| + |At(l, Delay(1))| + |At(l, Terminated)|
  {
    hide TasksPlaced, At, Rest;
    var p1 := {} + {Ready(0)};
    var p2 := p1 + {Ready(1)};
    var p3 := p2 + {Ready(2)};
    var p4 := p3 + {Ready(3)};
    var p5 := p4 + {Delay(0)};
    var p6 := p5 + {Delay(1)};
    SplitOff(l, {}, Ready(0));
    SplitOff(l, p1, Ready(1));
    SplitOff(l, p2, Ready(2));
    SplitOff(l, p3, Ready(3));
    SplitOff(l, p4, Delay(0));
    SplitOff(l, p5, Delay(1));
    LastPlaces(l, p6);
    EveryTaskPlaced(l);
  }

  lemma LastPlaces(l: TaskLists, ps: set<Place>)
    requires TasksPlaced(l, {}) && Terminated !in ps
    requires Ready(0) in ps && Ready(1) in ps && Ready(2) in ps && Ready(3) in ps && Delay(0) in ps && Delay(1) in ps
    ensures |Rest(l, ps)| == |At(l, Terminated)|
  {
    SplitOff(l, ps, Terminated);
    NowhereElse(l, ps + {Terminated});
  }

  lemma EveryTaskPlaced(l: TaskLists)
    requires TasksPlaced(l, {})
    ensures |Rest(l, {})| == |l.priority|
  {
    assert Rest(l, {}) == l.place.Keys == l.priority.Keys;
    assert |l.priority| == |l.priority.Keys|;
  }

  lemma NowhereElse(l: TaskLists, ps: set<Place>)
    requires TasksPlaced(l, {}) && Terminated in ps
    requires Ready(0) in ps && Ready(1) in ps && Ready(2) in ps && Ready(3) in ps && Delay(0) in ps && Delay(1) in ps
    ensures Rest(l, ps) == {}
  {
    forall t | t in l.place ensures l.place[t] in ps {
      assert t in l.priority;
    }
  }

  // ---------------------------------------------------------------- the counters

  // The count that the idle task works off is the length of the termination list. Every step
  // keeps it so, except deleting a task that has been deleted before and not been freed yet.
  ghost predicate DeletedCounted(s: Sched) { s.deleted == |s.lists.terminated| }

  lemma DeletedCountKept(s: Sched, step: Step)
    requires Enabled(s, step) && DeletedCounted(s)
    ensures DeletedCounted(Apply(s, step)) <==> !(step.Delete? && s.lists.place[step.t] == Terminated)
  {
    hide ReadyHold, TasksPlaced, EventsMatch, WakesFrom, NextIsEarly;
    var l := s.lists;
    match step
    case EventHead(t) => EventTask(l, t);
    case UnorderedEvent(t) => EventTask(l, t);
    case TickInterrupt => TickIsExact(l);
    case ResumeScheduler => if s.suspended == 1 { ResumeKeepsTerminated(s); }
    case Reap => if l.terminated != [] { TerminatedHead(l); }
    case _ =>
  }

  lemma ResumeKeepsTerminated(s: Sched)
    requires Sound(s.lists) && s.suspended == 1
    ensures ResumeAll(s).lists.terminated == s.lists.terminated && ResumeAll(s).deleted == s.deleted
  {
    hide Struct, NextIsEarly;
    DrainKeeps(s.(suspended := 0));
    RunPendedKeeps(DrainPending(s.(suspended := 0)));
  }

  // After such a deletion the idle task frees the task once, meets an empty list with its count
  // still above zero, and from then on a round of its clean-up loop changes nothing.
  lemma SecondDeletionStallsCleanUp(s: Sched, t: Task)
    requires Inv(s) && DeletedCounted(s) && s.lists.terminated == []
    requires t in s.lists.place && t != s.lists.current
    ensures Enabled(s, Delete(t)) && Enabled(Apply(s, Delete(t)), Delete(t))
    ensures var d := Apply(Apply(s, Delete(t)), Delete(t));
      && Enabled(d, Reap) && var r := Apply(d, Reap);
      && r.deleted == 1 && r.lists.terminated == [] && Enabled(r, Reap) && Apply(r, Reap) == r
  {
    hide Struct, NextIsEarly;
    assert Enabled(s, Delete(t));
    StepKeepsInv(s, Delete(t));
    var c := Apply(s, Delete(t));
    StepKeepsInv(c, Delete(t));
    var d := Apply(c, Delete(t));
    TerminatedOnce(s.lists, t);
    StepKeepsInv(d, Reap);
  }

  lemma TerminatedOnce(l: TaskLists, t: Task)
    requires Sound(l) && t in l.place && l.terminated == []
    ensures TakeOut(l, t).terminated == []
    ensures Without([t], t) == []
  {
    assert l.place[t] != Terminated by { assert Holds(l.terminated, l.place, Terminated); }
  }

  // No tick interrupt is lost exactly as long as none finds 255 ticks pended.
  lemma TicksConserved(s: Sched, step: Step)
    requires Enabled(s, step)
    ensures s.interrupts == s.lists.Clock() + s.pended <==> s.lost == 0
    ensures Apply(s, step).lost == s.lost + (if step.TickInterrupt? && s.suspended > 0 && s.pended == 255 then 1 else 0)
    ensures Apply(s, step).interrupts == s.interrupts + (if step.TickInterrupt? then 1 else 0)
  {
    hide Struct, NextIsEarly;
    if step.ResumeScheduler? && s.suspended == 1 { ResumeIsExact(s); }
  }

  lemma {:induction false} RunThen(s: Sched, steps: seq<Step>, step: Step)
    requires Runs(s, steps) && Enabled(RunAll(s, steps), step)
    ensures Runs(s, steps + [step]) && RunAll(s, steps + [step]) == Apply(RunAll(s, steps), step)
    decreases |steps|
  {
    hide Apply, Enabled;
    if steps == [] {
      assert steps + [step] == [step];
      assert Runs(Apply(s, step), [step][1..]);
    } else {
      assert (steps + [step])[1..] == steps[1..] + [step];
      RunThen(Apply(s, steps[0]), steps[1..], step);
    }
  }

  lemma ThenReachable(s: Sched, step: Step)
    requires Reachable(s) && Enabled(s, step)
    ensures Reachable(Apply(s, step))
  {
    hide Apply, Enabled;
    var idle, steps :| Runs(Initial(idle), steps) && s == RunAll(Initial(idle), steps);
    RunThen(Initial(idle), steps, step);
  }

  // The first task suspends the scheduler, and n ticks are pended, at most 255 of which are counted.
  function Suspended(idle: Task, n: nat): Sched {
    Initial(idle).(suspended := 1, pended := n % PEND_RANGE, interrupts := n, lost := n / PEND_RANGE)
  }

  lemma {:induction false} TicksPend(idle: Task, n: nat)
    requires n <= PEND_RANGE
    ensures Reachable(Suspended(idle, n))
  {
    hide Reachable, Struct, NextIsEarly;
    if n == 0 {
      StartReachable(idle);
      ReachableInv(Initial(idle));
      ThenReachable(Initial(idle), SuspendAll);
    } else {
      TicksPend(idle, n - 1);
      ReachableInv(Suspended(idle, n - 1));
      ThenReachable(Suspended(idle, n - 1), TickInterrupt);
    }
  }

  lemma StartReachable(idle: Task)
    ensures Reachable(Initial(idle))
  {
    assert Runs(Initial(idle), []) && RunAll(Initial(idle), []) == Initial(idle);
  }

  // A run in which the 256th tick pended makes the count zero, and 256 ticks are lost.
  lemma PendedTicksAreLost(idle: Task)
    ensures
      var s := Suspended(idle, 256);
      Reachable(s) && s.pended == 0 && s.lost == 1 && s.interrupts == s.lists.Clock() + s.pended + 256
  {
    TicksPend(idle, 256);
  }
}
