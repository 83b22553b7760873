// tasks.c: round robin over runs of the kernel. A task that stays ready is chosen within a bounded
// number of selections from its ready list, whatever tasks and interrupts do to the lists meanwhile.
module SchedulerWaits {
  import opened Rings
  import opened Scheduler
  import opened SchedulerRuns

  ghost predicate InRing(l: TaskLists, t: Task, p: nat) {
    p < |l.ready| && l.ready[p].Valid() && t in l.ready[p].items
  }

  ghost predicate ReadyAt(l: TaskLists, t: Task, p: nat) { t in l.place && l.place[t] == Ready(p) }

  // The bound on the wait of t in ready list p is no greater in r than in l.
  ghost predicate NoLonger(l: TaskLists, r: TaskLists, t: Task, p: nat, m: nat) {
    InRing(l, t, p) && InRing(r, t, p) && Wait(r.ready[p], t, m) <= Wait(l.ready[p], t, m)
  }

  lemma ReadyInRing(l: TaskLists, t: Task, p: nat)
    requires ReadyHold(l.ready, l.place) && ReadyAt(l, t, p) && p < PRIORITIES
    ensures InRing(l, t, p)
  {
    assert Holds(l.ready[p].items, l.place, Ready(p));
  }

  lemma SoundRing(l: TaskLists, t: Task, p: nat, hand: set<Task>)
    requires ListsMatch(l) && TasksPlaced(l, hand) && ReadyAt(l, t, p)
    ensures InRing(l, t, p)
  {
    hide ReadyHold, DelaysHold, Holds;
    assert t in l.priority;
    ReadyInRing(l, t, p);
  }

  // ---------------------------------------------------------------- list moves

  lemma TakeOutWaits(l: TaskLists, u: Task, t: Task, p: nat, m: nat)
    requires ListsMatch(l) && TasksPlaced(l, {}) && u in l.place && ReadyAt(l, t, p) && u != t
    ensures NoLonger(l, TakeOut(l, u), t, p, m) && ReadyAt(TakeOut(l, u), t, p)
  {
    hide DelaysHold, Holds;
    SoundRing(l, t, p, {});
    if l.place[u] == Ready(p) {
      SoundRing(l, u, p, {});
      RemoveFacts(l.ready[p], u);
      RemoveKeepsWait(l.ready[p], u, t, m);
    }
  }

  lemma AddReadyWaits(l: TaskLists, u: Task, t: Task, p: nat, m: nat)
    requires ListsMatch(l) && TasksPlaced(l, {u}) && ReadyAt(l, t, p)
    ensures NoLonger(l, AddReady(l, u), t, p, m) && ReadyAt(AddReady(l, u), t, p)
  {
    SoundRing(l, t, p, {u});
    if l.priority[u] == p {
      assert u !in l.ready[p].items by { assert Holds(l.ready[p].items, l.place, Ready(p)); }
      hide ListsMatch, TasksPlaced;
      InsertEndFacts(l.ready[p], u);
      InsertEndKeepsWait(l.ready[p], u, t, m);
    }
  }

  lemma WakeWaits(l: TaskLists, u: Task, t: Task, p: nat, m: nat)
    requires ListsMatch(l) && TasksPlaced(l, {}) && u in l.place && ReadyAt(l, t, p) && u != t
    ensures NoLonger(l, Wake(l, u), t, p, m) && ReadyAt(Wake(l, u), t, p)
  {
    hide ListsMatch, TasksPlaced, TakeOut, AddReady;
    TakeOutKeepsLists(l, u);
    TakeOutWaits(l, u, t, p, m);
    AddReadyWaits(TakeOut(l, u), u, t, p, m);
  }

  // ---------------------------------------------------------------- ticks and resuming

  lemma {:induction false} PopDueWaits(l: TaskLists, t: Task, p: nat, m: nat)
    requires Struct(l, {}, 0) && ReadyAt(l, t, p)
    ensures NoLonger(l, PopDue(l), t, p, m) && ReadyAt(PopDue(l), t, p)
    decreases |l.delays[l.cur]|
  {
    hide ReadyHold, DelaysHold, Holds, TasksPlaced, EventsMatch, DelaysInOrder, Wake;
    SoundRing(l, t, p, {});
    if l.delays[l.cur] != [] {
      PopStep(l);
      var u := l.delays[l.cur][0];
      if l.value[u] <= l.tick {
        WakeWaits(l, u, t, p, m);
        PopDueWaits(Wake(l, u), t, p, m);
      }
    }
  }

  lemma TickWaits(l: TaskLists, t: Task, p: nat, m: nat)
    requires Sound(l) && ReadyAt(l, t, p)
    ensures NoLonger(l, Tick(l), t, p, m) && ReadyAt(Tick(l), t, p)
  {
    hide ListsMatch, TasksPlaced, EventsMatch, WakesFrom, NextIsEarly, DelaysInOrder, PopDue;
    AdvanceKeeps(l);
    SoundRing(l, t, p, {});
    DueIsNow(l);
    var a := Advance(l);
    assert a.ready == l.ready && a.place == l.place;
    if a.tick >= a.next { PopDueWaits(a, t, p, m); }
  }

  lemma {:induction false} DrainWaits(s: Sched, t: Task, p: nat, m: nat)
    requires Sound(s.lists) && ReadyAt(s.lists, t, p)
    ensures NoLonger(s.lists, DrainPending(s).lists, t, p, m) && ReadyAt(DrainPending(s).lists, t, p)
    decreases |s.lists.pending|
  {
    hide ListsMatch, TasksPlaced, EventsMatch, WakesFrom, NextIsEarly, Wake;
    var l := s.lists;
    SoundRing(l, t, p, {});
    if l.pending != [] {
      DrainStep(l);
      var u := l.pending[0];
      WakeWaits(l, u, t, p, m);
      DrainWaits(s.(lists := Wake(l, u), yieldPending := s.yieldPending || l.priority[u] >= l.priority[l.current]),
                 t, p, m);
    }
  }

  lemma {:induction false} RunPendedWaits(s: Sched, t: Task, p: nat, m: nat)
    requires Sound(s.lists) && ReadyAt(s.lists, t, p)
    ensures NoLonger(s.lists, RunPended(s).lists, t, p, m) && ReadyAt(RunPended(s).lists, t, p)
    decreases s.pended
  {
    hide ListsMatch, TasksPlaced, EventsMatch, WakesFrom, NextIsEarly, Tick, TickSwitches;
    SoundRing(s.lists, t, p, {});
    if s.pended > 0 {
      TickIsExact(s.lists);
      RunningHasList(s.lists);
      TickWaits(s.lists, t, p, m);
      RunPendedWaits(s.(lists := Tick(s.lists), pended := s.pended - 1,
                        yieldPending := s.yieldPending || TickSwitches(s.lists)), t, p, m);
    }
  }

  lemma ResumeWaits(s: Sched, t: Task, p: nat, m: nat)
    requires Sound(s.lists) && s.suspended > 0 && ReadyAt(s.lists, t, p)
    ensures NoLonger(s.lists, ResumeAll(s).lists, t, p, m)
  {
    hide Struct, NextIsEarly;
    var r := s.(suspended := s.suspended - 1);
    if r.suspended > 0 {
      UnchangedWaits(s.lists, t, p, m);
    } else {
      DrainKeeps(r);
      DrainWaits(r, t, p, m);
      RunPendedWaits(DrainPending(r), t, p, m);
    }
  }

  lemma UnchangedWaits(l: TaskLists, t: Task, p: nat, m: nat)
    requires Sound(l) && ReadyAt(l, t, p)
    ensures NoLonger(l, l, t, p, m)
  {
    SoundRing(l, t, p, {});
  }

  // ---------------------------------------------------------------- every step

  // The step is a context switch that selects from ready list p.
  ghost predicate SelectsFrom(s: Sched, step: Step, p: nat)
    requires Enabled(s, step)
  {
    hide Struct, NextIsEarly;
    step.SwitchContext? && s.suspended == 0 && SelectTask(s.lists).top == p
  }

  lemma SelectionWaits(l: TaskLists, t: Task, p: nat, m: nat)
    requires Sound(l) && SomeReady(l) && ReadyAt(l, t, p) && p < |l.ready| && |l.ready[p].items| <= m
    ensures
      var r := SelectTask(l);
      if r.top == p then
        InRing(l, t, p) && InRing(r, t, p)
        && (r.current == t || Wait(r.ready[p], t, m) < Wait(l.ready[p], t, m))
      else NoLonger(l, r, t, p, m)
  {
    TopCoversReady(l);
    SoundRing(l, t, p, {});
    hide Sound, ReadyAt, SomeReady;
    if HighestReady(l.ready, l.top) == p && l.ready[p].Next().Current() != t {
      SelectLowersWait(l.ready[p], t, m);
    }
  }

  lemma BlockWaits(l: TaskLists, ticks: nat, onEvent: bool, t: Task, p: nat, m: nat)
    requires Sound(l) && l.IsReady(l.current) && MayBlockFor(l, ticks)
    requires ReadyAt(l, t, p) && l.current != t
    ensures NoLonger(l, Block(l, ticks, onEvent), t, p, m)
  {
    hide ListsMatch, TasksPlaced, EventsMatch, WakesFrom, NextIsEarly;
    TakeOutKeeps(l, l.current, Earliest(l));
    TakeOutWaits(l, l.current, t, p, m);
    AddDelayedFits(TakeOut(l, l.current));
    hide TakeOut;
  }

  lemma AddNewWaits(l: TaskLists, u: Task, q: nat, t: Task, p: nat, m: nat)
    requires Sound(l) && u !in l.priority && ReadyAt(l, t, p)
    ensures NoLonger(l, AddNew(l, u, q), t, p, m)
  {
    hide ReadyHold, DelaysHold, Holds, EventsMatch, WakesFrom, NextIsEarly, AddReady;
    var cut := if q >= PRIORITIES then PRIORITIES - 1 else q;
    NewInHand(l, u, cut);
    var n := l.(priority := l.priority[u := cut], tasks := l.tasks + 1);
    hide TasksPlaced;
    AddReadyWaits(n, u, t, p, m);
  }

  lemma ReprioritiseWaits(l: TaskLists, u: Task, q: nat, t: Task, p: nat, m: nat)
    requires Sound(l) && u in l.priority && q < PRIORITIES && ReadyAt(l, t, p) && u != t
    ensures NoLonger(l, Reprioritise(l, u, q), t, p, m)
  {
    hide ReadyHold, DelaysHold, Holds, TasksPlaced, EventsMatch, WakesFrom, NextIsEarly, AddReady;
    if l.IsReady(u) {
      TakeOutKeepsLists(l, u);
      TakeOutWaits(l, u, t, p, m);
      PriorityInHand(TakeOut(l, u), u, q);
      var v := TakeOut(l, u).(priority := l.priority[u := q]);
      hide TakeOut;
      AddReadyWaits(v, u, t, p, m);
    } else {
      UnchangedWaits(l, t, p, m);
    }
  }

  // No step but a selection of t itself makes it wait longer, as long as it stays ready, and each
  // selection of another task from its list shortens the wait.
  lemma StepWaits(s: Sched, step: Step, t: Task, p: nat, m: nat)
    requires Enabled(s, step) && ReadyAt(s.lists, t, p) && ReadyAt(Apply(s, step).lists, t, p)
    requires p < |s.lists.ready| && |s.lists.ready[p].items| <= m
    ensures
      var l, r := s.lists, Apply(s, step).lists;
      if SelectsFrom(s, step, p) then
        InRing(l, t, p) && InRing(r, t, p)
        && (r.current == t || Wait(r.ready[p], t, m) < Wait(l.ready[p], t, m))
      else NoLonger(l, r, t, p, m)
  {
    hide Struct, NextIsEarly, NoLonger, InRing;
    var l := s.lists;
    match step
    case Create(u, q) => AddNewWaits(l, u, q, t, p, m);
    case BlockFor(ticks, onEvent) => CurrentBlocks(l, ticks, onEvent); BlockWaits(l, ticks, onEvent, t, p, m);
    case EventHead(u) => EventWaits(s, u, t, p, m);
    case UnorderedEvent(u) => EventWaits(s, u, t, p, m);
    case TickInterrupt => TickWaits(l, t, p, m); UnchangedWaits(l, t, p, m);
    case ResumeScheduler => ResumeWaits(s, t, p, m);
    case SwitchContext =>
      UnchangedWaits(l, t, p, m);
      if s.suspended == 0 { SelectionWaits(l, t, p, m); }
    case Delete(u) => DeleteWaits(s, u, t, p, m);
    case Reap => ReapWaits(s, t, p, m);
    case SetPriority(u, q) => PriorityKeepsTask(l, u, q, t, p); ReprioritiseWaits(l, u, q, t, p, m);
    case ResetUnblockTime => ResetWaits(l, t, p, m);
    case SuspendAll => UnchangedWaits(l, t, p, m);
  }

  lemma CurrentBlocks(l: TaskLists, ticks: nat, onEvent: bool)
    requires Sound(l) && l.IsReady(l.current) && MayBlockFor(l, ticks)
    ensures !Block(l, ticks, onEvent).IsReady(l.current)
  {
    hide ListsMatch, TasksPlaced, EventsMatch, WakesFrom, NextIsEarly;
    TakeOutKeeps(l, l.current, Earliest(l));
    AddDelayedFits(TakeOut(l, l.current));
    hide TakeOut;
  }

  lemma PriorityKeepsTask(l: TaskLists, u: Task, q: nat, t: Task, p: nat)
    requires Sound(l) && u in l.priority && q < PRIORITIES && q != l.priority[u]
    requires ReadyAt(l, t, p) && ReadyAt(Reprioritise(l, u, q), t, p)
    ensures u != t
  {
    hide ReadyHold, DelaysHold, Holds, EventsMatch, WakesFrom, NextIsEarly;
  }

  lemma ResetWaits(l: TaskLists, t: Task, p: nat, m: nat)
    requires Sound(l) && ReadyAt(l, t, p)
    ensures NoLonger(l, ResetNext(l), t, p, m)
  {
    UnchangedWaits(l, t, p, m);
    hide Sound;
  }

  lemma EventWaits(s: Sched, u: Task, t: Task, p: nat, m: nat)
    requires Inv(s) && u in s.lists.onEvent && ReadyAt(s.lists, t, p)
    ensures
      var l := s.lists;
      && u in l.place && NoLonger(l, Wake(l, u), t, p, m)
      && NoLonger(l, l.(onEvent := l.onEvent - {u}, pending := l.pending + [u]), t, p, m)
  {
    hide ReadyHold, DelaysHold, Holds, WakesFrom, NextIsEarly, Wake;
    EventTask(s.lists, u);
    hide TasksPlaced, EventsMatch;
    WakeWaits(s.lists, u, t, p, m);
    UnchangedWaits(s.lists, t, p, m);
  }

  lemma DeleteWaits(s: Sched, u: Task, t: Task, p: nat, m: nat)
    requires Enabled(s, Delete(u)) && ReadyAt(s.lists, t, p) && ReadyAt(Apply(s, Delete(u)).lists, t, p)
    ensures NoLonger(s.lists, Apply(s, Delete(u)).lists, t, p, m)
  {
    hide ListsMatch, TasksPlaced, EventsMatch, WakesFrom, NextIsEarly, TakeOut;
    TakeOutWaits(s.lists, u, t, p, m);
  }

  lemma ReapWaits(s: Sched, t: Task, p: nat, m: nat)
    requires Enabled(s, Reap) && ReadyAt(s.lists, t, p)
    ensures NoLonger(s.lists, Apply(s, Reap).lists, t, p, m)
  {
    hide ListsMatch, TasksPlaced, EventsMatch, WakesFrom, NextIsEarly, TakeOut;
    UnchangedWaits(s.lists, t, p, m);
    if s.lists.terminated != [] {
      TerminatedHead(s.lists);
      TakeOutWaits(s.lists, s.lists.terminated[0], t, p, m);
    }
  }

  // ---------------------------------------------------------------- runs

  // Throughout the run t is ready at priority p, in a list of at most m tasks.
  ghost predicate StaysReady(s: Sched, steps: seq<Step>, t: Task, p: nat, m: nat)
    requires Runs(s, steps)
    decreases |steps|
  {
    && ReadyAt(s.lists, t, p) && p < |s.lists.ready| && |s.lists.ready[p].items| <= m
    && (steps == [] || StaysReady(Apply(s, steps[0]), steps[1..], t, p, m))
  }

  ghost function SelectionsFrom(s: Sched, steps: seq<Step>, p: nat): nat
    requires Runs(s, steps)
    decreases |steps|
  {
    if steps == [] then 0
    else
      (if SelectsFrom(s, steps[0], p) then 1 else 0)
      + SelectionsFrom(Apply(s, steps[0]), steps[1..], p)
  }

  // Some context switch of the run makes t the running task.
  ghost predicate IsChosen(s: Sched, steps: seq<Step>, t: Task)
    requires Runs(s, steps)
    decreases |steps|
  {
    steps != [] &&
    (|| (steps[0].SwitchContext? && s.suspended == 0 && Apply(s, steps[0]).lists.current == t)
     || IsChosen(Apply(s, steps[0]), steps[1..], t))
  }

  // In every run of the kernel in which a task stays ready at its priority, it runs after at most
  // Wait selections from its list, which is never more than 2m for a list of at most m tasks.
  lemma {:induction false} ReadyTaskRuns(s: Sched, steps: seq<Step>, t: Task, p: nat, m: nat)
    requires Inv(s) && Runs(s, steps) && StaysReady(s, steps, t, p, m)
    ensures InRing(s.lists, t, p) && Wait(s.lists.ready[p], t, m) <= 2 * m
    ensures SelectionsFrom(s, steps, p) >= Wait(s.lists.ready[p], t, m) ==> IsChosen(s, steps, t)
    decreases |steps|
  {
    hide Sound, Enabled, SelectsFrom;
    UnchangedWaits(s.lists, t, p, m);
    if steps != [] {
      EnabledSelects(s, steps[0], p);
      var s' := Apply(s, steps[0]);
      StepKeepsInv(s, steps[0]);
      StepWaits(s, steps[0], t, p, m);
      ReadyTaskRuns(s', steps[1..], t, p, m);
    }
  }

  lemma EnabledSelects(s: Sched, step: Step, p: nat)
    requires Enabled(s, step)
    ensures SelectsFrom(s, step, p) ==> step.SwitchContext? && s.suspended == 0
  {
  }
}
