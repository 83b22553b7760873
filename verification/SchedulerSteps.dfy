// tasks.c: what each step of the kernel comes to for the tasks, said without the lists: which tasks
// are ready, blocked or deleted, when they want to wake, which wait for an event and which runs.
module SchedulerSteps {
  import opened Rings
  import opened Scheduler
  import opened SchedulerRuns

  // Nothing a task could tell of itself differs.
  ghost predicate Untouched(l: TaskLists, r: TaskLists, t: Task) {
    && (t in l.priority <==> t in r.priority) && (t in l.priority ==> l.priority[t] == r.priority[t])
    && (t in l.place <==> t in r.place) && (t in l.place ==> l.place[t] == r.place[t])
    && (t in l.due <==> t in r.due) && (t in l.due ==> l.due[t] == r.due[t])
    && (t in l.onEvent <==> t in r.onEvent) && (t in l.pending <==> t in r.pending)
  }

  // All tasks but one.
  ghost predicate OnlyChanges(l: TaskLists, r: TaskLists, t: Task) {
    && r.Clock() == l.Clock() && r.current == l.current
    && forall u :: u != t ==> Untouched(l, r, u)
  }

  ghost predicate NoneChange(l: TaskLists, r: TaskLists) {
    r.Clock() == l.Clock() && r.tasks == l.tasks && forall u :: Untouched(l, r, u)
  }

  ghost predicate ReadyTask(l: TaskLists, t: Task, p: nat) {
    && t in l.priority && l.priority[t] == p && t in l.place && l.place[t] == Ready(p)
    && t !in l.onEvent && t !in l.pending
  }

  // t is blocked until the clock reaches `at`.
  ghost predicate BlockedTask(l: TaskLists, t: Task, at: nat) {
    l.Blocked(t) && t in l.due && l.due[t] == at
  }

  ghost predicate Deleted(l: TaskLists, t: Task) {
    t in l.place && l.place[t] == Terminated && t !in l.onEvent && t !in l.pending
  }

  // Of the blocked tasks exactly those in `now` are ready, each at its own priority; the others are as
  // they were, and so is which task runs.
  ghost predicate Readies(l: TaskLists, r: TaskLists, now: iset<Task>) {
    && r.priority == l.priority && r.due == l.due && r.current == l.current && r.tasks == l.tasks
    && r.place.Keys == l.place.Keys
    && forall t :: t in l.place ==>
         if t in now && l.Blocked(t) then t in l.priority && ReadyTask(r, t, l.priority[t])
         else r.place[t] == l.place[t] && (t in r.onEvent <==> t in l.onEvent)
  }

  // A readied task is not below the running one.
  ghost predicate ReadiesNotBelow(l: TaskLists, now: iset<Task>) {
    exists t :: t in now && l.Blocked(t) && NotBelow(l, t)
  }

  // ---------------------------------------------------------------- what the list moves leave alone

  lemma TakeOutFrame(l: TaskLists, t: Task)
    requires ListsMatch(l) && TasksPlaced(l, {}) && t in l.place
    ensures
      var r := TakeOut(l, t);
      r == l.(place := l.place - {t}, ready := r.ready, delays := r.delays, terminated := r.terminated,
              onEvent := l.onEvent - {t}, pending := Without(l.pending, t))
  {
    hide ListsMatch, TasksPlaced, Without;
  }

  lemma AddReadyFrame(l: TaskLists, t: Task)
    requires ListsMatch(l) && TasksPlaced(l, {t})
    ensures t in l.priority
    ensures
      var r := AddReady(l, t);
      r == l.(top := r.top, ready := r.ready, place := l.place[t := Ready(l.priority[t])])
  {
    hide ListsMatch;
  }

  lemma AddDelayedFrame(l: TaskLists, t: Task, due: nat)
    requires l.cur < 2 && DelaysInOrder(l.delays, l.value)
    ensures
      var r := AddDelayed(l, t, due);
      && r == l.(value := r.value, delays := r.delays, next := r.next, due := l.due[t := due], place := r.place)
      && t in r.place && r.place[t].Delay? && r.place == l.place[t := r.place[t]]
  {
    hide DelaysInOrder, InSorted;
  }

  // The maps differ at t only.
  ghost predicate But<V>(a: map<Task, V>, b: map<Task, V>, t: Task) {
    forall u :: u != t ==> (u in a <==> u in b) && (u in a ==> a[u] == b[u])
  }

  lemma FieldsMean(l: TaskLists, r: TaskLists, t: Task)
    requires But(l.priority, r.priority, t) && But(l.place, r.place, t) && But(l.due, r.due, t)
    requires forall u :: u != t ==> (u in l.onEvent <==> u in r.onEvent) && (u in l.pending <==> u in r.pending)
    requires r.current == l.current && r.Clock() == l.Clock()
    ensures OnlyChanges(l, r, t)
  {
    forall u | u != t ensures Untouched(l, r, u) { }
  }

  // A task is moved to another place, and off its event lists.
  lemma MovedMeans(l: TaskLists, r: TaskLists, t: Task, p: Place)
    requires NoDup(l.pending) && t in l.place
    requires r.priority == l.priority && r.due == l.due && r.current == l.current && r.Clock() == l.Clock()
    requires r.place == (l.place - {t})[t := p] && r.onEvent == l.onEvent - {t} && r.pending == Without(l.pending, t)
    ensures OnlyChanges(l, r, t) && t in r.place && r.place[t] == p && t !in r.onEvent && t !in r.pending
  {
    WithoutFacts(l.pending, t);
    hide Without, NoDup, OnlyChanges;
    FieldsMean(l, r, t);
  }

  // ---------------------------------------------------------------- blocking

  lemma BlockMeans(s: Sched, ticks: nat, onEvent: bool)
    requires Enabled(s, BlockFor(ticks, onEvent))
    ensures
      var l, r := s.lists, Apply(s, BlockFor(ticks, onEvent)).lists;
      var t := l.current;
      && BlockedTask(r, t, l.Clock() + ticks)
      && (t in r.onEvent <==> onEvent) && t !in r.pending
      && r.priority == l.priority && r.tasks == l.tasks && OnlyChanges(l, r, t)
    ensures
      var r := Apply(s, BlockFor(ticks, onEvent));
      r == s.(lists := r.lists)
  {
    hide Sound, Block, BlockedTask, OnlyChanges;
    BlocksMeans(s.lists, ticks, onEvent);
  }

  lemma BlocksMeans(l: TaskLists, ticks: nat, onEvent: bool)
    requires Sound(l) && l.IsReady(l.current)
    ensures
      var r, t := Block(l, ticks, onEvent), l.current;
      && BlockedTask(r, t, l.Clock() + ticks)
      && (t in r.onEvent <==> onEvent) && t !in r.pending
      && r.priority == l.priority && r.tasks == l.tasks && OnlyChanges(l, r, t)
  {
    RunningFree(l);
    hide Sound, Block, OnlyChanges, Without;
    BlockFrame(l, ticks, onEvent);
    var r, t := Block(l, ticks, onEvent), l.current;
    PlaceButs(l.place, t, r.place[t]);
    DueButs(l.due, t, l.Clock() + ticks);
    hide But;
    FieldsMean(l, r, t);
  }

  lemma PlaceButs(m: map<Task, Place>, t: Task, p: Place)
    ensures But(m, (m - {t})[t := p], t)
  {
  }

  lemma DueButs(m: map<Task, nat>, t: Task, due: nat)
    ensures But(m, m[t := due], t) && But(m, m, t)
  {
  }

  lemma BlockFrame(l: TaskLists, ticks: nat, onEvent: bool)
    requires Sound(l) && l.IsReady(l.current)
    ensures
      var r, t := Block(l, ticks, onEvent), l.current;
      && r == l.(value := r.value, ready := r.ready, delays := r.delays, terminated := r.terminated, next := r.next,
                 due := l.due[t := l.Clock() + ticks], place := r.place,
                 onEvent := if onEvent then l.onEvent - {t} + {t} else l.onEvent - {t},
                 pending := Without(l.pending, t))
      && t in r.place && r.place[t].Delay? && r.place == (l.place - {t})[t := r.place[t]]
  {
    hide ReadyHold, DelaysHold, Holds, TasksPlaced, EventsMatch, WakesFrom, NextIsEarly, TakeOut, AddDelayed, Without;
    TakeOutKeeps(l, l.current, Earliest(l));
    TakeOutFrame(l, l.current);
    AddDelayedFits(TakeOut(l, l.current));
    AddDelayedFrame(TakeOut(l, l.current), l.current, l.Clock() + ticks);
  }

  // A ready task waits for nothing.
  lemma RunningFree(l: TaskLists)
    requires Sound(l) && l.IsReady(l.current)
    ensures l.current !in l.onEvent && Without(l.pending, l.current) == l.pending && l.current !in l.pending
  {
    assert !l.Blocked(l.current);
  }

  // ---------------------------------------------------------------- waking

  lemma WakeMeans(l: TaskLists, t: Task)
    requires Sound(l) && t in l.place && t in l.priority
    ensures
      var r := Wake(l, t);
      ReadyTask(r, t, l.priority[t]) && OnlyChanges(l, r, t) && r.priority == l.priority && r.tasks == l.tasks
  {
    PendingOnce(l);
    hide Sound, ListsMatch, TasksPlaced, NoDup, Without, TakeOut, AddReady;
    SoundParts(l);
    TakeOutKeepsLists(l, t);
    TakeOutFrame(l, t);
    AddReadyFrame(TakeOut(l, t), t);
    MovedMeans(l, Wake(l, t), t, Ready(l.priority[t]));
  }

  lemma SoundParts(l: TaskLists)
    requires Sound(l)
    ensures ListsMatch(l) && TasksPlaced(l, {})
  {
  }

  lemma PendingOnce(l: TaskLists)
    requires Sound(l)
    ensures NoDup(l.pending)
  {
  }

  // The task an event wakes is ready, or is held back while the scheduler is suspended: then it stays
  // blocked, and only no longer waits for the event. A switch is asked for if it is above the running one.
  lemma EventMeans(s: Sched, t: Task)
    requires Enabled(s, EventHead(t))
    ensures
      var l, r := s.lists, Apply(s, EventHead(t));
      && t in l.priority && l.current in l.priority && OnlyChanges(l, r.lists, t)
      && (s.suspended == 0 ==> ReadyTask(r.lists, t, l.priority[t]))
      && (s.suspended > 0 ==>
            && r.lists.place == l.place && r.lists.due == l.due && r.lists.priority == l.priority
            && t in r.lists.pending && t !in r.lists.onEvent)
      && (r.yieldPending <==> s.yieldPending || l.priority[t] > l.priority[l.current])
      && r == s.(lists := r.lists, yieldPending := r.yieldPending)
  {
    EventTask(s.lists, t);
    EventKept(s.lists, t);
    hide Struct, NextIsEarly, Wake, ReadyTask, OnlyChanges;
    WakeMeans(s.lists, t);
    if s.suspended > 0 { FieldsMean(s.lists, Apply(s, EventHead(t)).lists, t); }
  }

  lemma EventKept(l: TaskLists, t: Task)
    requires Sound(l) && t in l.onEvent
    ensures t in l.place && t in l.priority && l.current in l.priority
  {
    EventTask(l, t);
  }

  lemma UnorderedMeans(s: Sched, t: Task)
    requires Enabled(s, UnorderedEvent(t))
    ensures
      var l, r := s.lists, Apply(s, UnorderedEvent(t));
      && t in l.priority && l.current in l.priority && OnlyChanges(l, r.lists, t)
      && ReadyTask(r.lists, t, l.priority[t])
      && (r.yieldPending <==> s.yieldPending || l.priority[t] > l.priority[l.current])
      && r == s.(lists := r.lists, yieldPending := r.yieldPending)
  {
    EventTask(s.lists, t);
    EventKept(s.lists, t);
    hide Struct, NextIsEarly, Wake, ReadyTask, OnlyChanges;
    WakeMeans(s.lists, t);
  }

  // ---------------------------------------------------------------- ticks and suspension

  lemma ReadyIsFree(r: TaskLists, t: Task)
    requires Sound(r) && r.IsReady(t)
    ensures t !in r.onEvent && t !in r.pending
  {
  }

  lemma ReadiedMeans(l: TaskLists, r: TaskLists, now: iset<Task>)
    requires Sound(l) && Sound(r) && Readied(l, r, now)
    requires r.priority == l.priority && r.due == l.due && r.current == l.current && r.tasks == l.tasks
    requires forall t :: t in r.onEvent <==> t in l.onEvent && r.Blocked(t)
    ensures Readies(l, r, now)
  {
    forall t | t in l.place && t in now && l.Blocked(t) ensures ReadyTask(r, t, l.priority[t]) {
      ReadyIsFree(r, t);
    }
    EventsAreBlocked(l);
    hide Struct, NextIsEarly;
  }

  lemma EventsAreBlocked(l: TaskLists)
    requires Sound(l)
    ensures forall t :: t in l.onEvent ==> l.Blocked(t)
  {
  }

  // A tick takes the clock on by one and readies the tasks whose time has come; while the scheduler is
  // suspended it is only counted, in eight bits.
  lemma TickMeans(s: Sched)
    requires Enabled(s, TickInterrupt)
    ensures
      var l, r := s.lists, Apply(s, TickInterrupt);
      && r.interrupts == s.interrupts + 1 && r.suspended == s.suspended && r.yieldPending == s.yieldPending
      && r.deleted == s.deleted
      && (s.suspended == 0 ==>
            && r.lists.Clock() == l.Clock() + 1 && r.pended == s.pended
            && Readies(l, r.lists, WantsBy(l, l.Clock() + 1)))
      && (s.suspended > 0 ==> r.lists == l && r.pended == (s.pended + 1) % PEND_RANGE)
  {
    hide Struct, NextIsEarly, Tick;
    if s.suspended == 0 {
      TickIsExact(s.lists);
      WantsSplit(s.lists, Tick(s.lists));
      ReadiedMeans(s.lists, Tick(s.lists), WantsBy(s.lists, s.lists.Clock() + 1));
    }
  }

  lemma WantsSplit(l: TaskLists, r: TaskLists)
    requires Sound(l) && NoneBefore(l, l.Clock())
    requires Readied(l, r, WantsAt(l, l.Clock()) + WantsAt(l, l.Clock() + 1))
    ensures Readied(l, r, WantsBy(l, l.Clock() + 1))
  {
    hide Struct, NextIsEarly;
  }

  // Suspensions nest; while there is one no task changes.
  lemma SuspendMeans(s: Sched)
    requires Enabled(s, SuspendAll)
    ensures
      var r := Apply(s, SuspendAll);
      r.suspended == s.suspended + 1 && r == s.(suspended := r.suspended)
    ensures s.suspended > 0 ==>
      Enabled(Apply(s, SuspendAll), ResumeScheduler) && Apply(Apply(s, SuspendAll), ResumeScheduler) == s
  {
    hide Struct, NextIsEarly;
  }

  // The tasks a resumption readies: those held back, and those the pended ticks reach.
  ghost function Resumed(s: Sched): iset<Task> { Elements(s.lists.pending) + Reached(s.lists, s.pended) }

  lemma {:induction false} DrainAsks(s: Sched)
    requires Sound(s.lists)
    ensures s.lists.current in s.lists.priority
    ensures DrainPending(s).yieldPending <==>
      s.yieldPending || ReadiesNotBelow(s.lists, Elements(s.lists.pending))
    decreases |s.lists.pending|
  {
    hide ReadyHold, DelaysHold, Holds, WakesFrom, NextIsEarly, Wake;
    var l := s.lists;
    if l.pending != [] {
      DrainStep(l);
      hide TasksPlaced, EventsMatch;
      var d := Drained(s);
      DrainAsks(d);
      DrainedAsks(l, d.lists);
    }
  }

  lemma DrainedAsks(l: TaskLists, w: TaskLists)
    requires l.pending != [] && w.pending == l.pending[1..] && NoDup(l.pending)
    requires w.priority == l.priority && w.current == l.current
    requires l.pending[0] in l.place && l.pending[0] in l.priority && l.current in l.priority
    requires w.place == l.place[l.pending[0] := Ready(l.priority[l.pending[0]])]
    requires l.Blocked(l.pending[0])
    ensures ReadiesNotBelow(l, Elements(l.pending)) <==>
      l.priority[l.pending[0]] >= l.priority[l.current] || ReadiesNotBelow(w, Elements(w.pending))
  {
    var h := l.pending[0];
    forall t | t in w.pending ensures t != h && t in l.pending && (w.Blocked(t) <==> l.Blocked(t)) { }
    if ReadiesNotBelow(l, Elements(l.pending)) && l.priority[h] < l.priority[l.current] {
      var t :| t in l.pending && l.Blocked(t) && NotBelow(l, t);
      assert t in w.pending && NotBelow(w, t);
    }
    if l.priority[h] >= l.priority[l.current] { assert NotBelow(l, h); }
    if ReadiesNotBelow(w, Elements(w.pending)) {
      var t :| t in w.pending && w.Blocked(t) && NotBelow(w, t);
      assert NotBelow(l, t);
    }
  }

  // Another task is ready at the priority of the running one.
  predicate Shares(l: TaskLists) {
    && l.current in l.priority && l.priority[l.current] < |l.ready|
    && |l.ready[l.priority[l.current]].items| > 1
  }

  lemma {:induction false} PendedAsk(s: Sched)
    requires Sound(s.lists)
    ensures RunPended(s).yieldPending <==>
      || s.yieldPending
      || ReadiesNotBelow(s.lists, Reached(s.lists, s.pended))
      || (s.pended > 0 && Shares(RunPended(s).lists))
    decreases s.pended
  {
    hide ListsMatch, TasksPlaced, EventsMatch, WakesFrom, NextIsEarly, Tick, TickSwitches, Reached, ReadiesNotBelow;
    var l := s.lists;
    if s.pended == 0 {
      NothingReached(l);
    } else {
      TickIsExact(l);
      TickSwitchesMeaning(l);
      BlockedAreDue(l);
      var m := s.(lists := Tick(l), pended := s.pended - 1, yieldPending := s.yieldPending || TickSwitches(l));
      PendedAsk(m);
      RunPendedKeeps(m);
      ReachedAsks(l, Tick(l), s.pended);
      SharesGrows(m);
    }
  }

  lemma BlockedAreDue(l: TaskLists)
    requires Sound(l)
    ensures forall t :: l.Blocked(t) ==> t in l.due
  {
    hide ListsMatch, TasksPlaced, EventsMatch, DelaysInOrder;
  }

  lemma NothingReached(l: TaskLists)
    ensures !ReadiesNotBelow(l, Reached(l, 0))
  {
  }

  lemma ReachedAsks(l: TaskLists, w: TaskLists, n: nat)
    requires n > 0 && Readied(l, w, WantsAt(l, l.Clock()) + WantsAt(l, l.Clock() + 1)) && NoneBefore(l, l.Clock())
    requires w.priority == l.priority && w.current == l.current && w.due == l.due && w.Clock() == l.Clock() + 1
    requires forall t :: l.Blocked(t) ==> t in l.due
    ensures ReadiesNotBelow(l, Reached(l, n)) <==>
      || (exists t :: NotBelow(l, t) && l.Blocked(t) && t in l.due && l.due[t] <= l.Clock() + 1)
      || ReadiesNotBelow(w, Reached(w, n - 1))
  {
    if ReadiesNotBelow(l, Reached(l, n)) {
      var t :| t in Reached(l, n) && l.Blocked(t) && NotBelow(l, t);
      assert NotBelow(w, t);
      assert l.due[t] <= l.Clock() + 1 || (w.Blocked(t) && t in Reached(w, n - 1));
    }
    if ReadiesNotBelow(w, Reached(w, n - 1)) {
      var t :| t in Reached(w, n - 1) && w.Blocked(t) && NotBelow(w, t);
      assert NotBelow(l, t) && t in l.place && l.Blocked(t) && t in Reached(l, n);
    }
    if t :| NotBelow(l, t) && l.Blocked(t) && t in l.due && l.due[t] <= l.Clock() + 1 {
      assert t in Reached(l, n);
    }
  }

  // Making up for ticks only adds to the ready lists.
  lemma {:induction false} SharesGrows(s: Sched)
    requires Sound(s.lists)
    ensures Shares(s.lists) ==> Shares(RunPended(s).lists)
    ensures s.pended == 0 ==> Shares(RunPended(s).lists) == Shares(s.lists)
  {
    hide Struct, NextIsEarly, Shares;
    RunPendedKeeps(s);
    if Shares(s.lists) { ReadiedShares(s.lists, RunPended(s).lists, Reached(s.lists, s.pended)); }
  }

  lemma ReadiedShares(l: TaskLists, r: TaskLists, now: iset<Task>)
    requires Sound(l) && Sound(r) && Readied(l, r, now) && r.priority == l.priority && r.current == l.current
    requires Shares(l)
    ensures Shares(r)
  {
    var p := l.priority[l.current];
    ReadyListHolds(l, p);
    ReadyListHolds(r, p);
    hide Sound, NoDup;
    forall t | t in l.ready[p].items ensures t in r.ready[p].items { ReadyStays(l, r, now, p, t); }
    hide Readied;
    TwoMembers(l.ready[p].items, r.ready[p].items);
  }

  lemma ReadyStays(l: TaskLists, r: TaskLists, now: iset<Task>, p: nat, t: Task)
    requires Readied(l, r, now) && t in l.place && l.place[t] == Ready(p)
    ensures t in r.place && r.place[t] == Ready(p)
  {
  }

  lemma TwoMembers(q: seq<Task>, w: seq<Task>)
    requires |q| > 1 && NoDup(q) && forall t :: t in q ==> t in w
    ensures |w| > 1
  {
    assert q[0] in q && q[1] in q && q[0] != q[1];
  }

  lemma ReadyListHolds(l: TaskLists, p: nat)
    requires Sound(l) && p < |l.ready|
    ensures |l.ready| == PRIORITIES && NoDup(l.ready[p].items)
    ensures forall t :: t in l.ready[p].items <==> t in l.place && l.place[t] == Ready(p)
  {
    assert Holds(l.ready[p].items, l.place, Ready(p));
    hide DelaysHold, TasksPlaced, EventsMatch, WakesFrom, NextIsEarly;
  }

  // The inner resumptions only count down. The outermost makes up for the pended ticks, readies the
  // tasks held back and those whose time has come meanwhile, and asks for a switch exactly if one was
  // asked for already, if a task it readies is not below the running one, or if there were ticks and
  // another task is ready at the running one's priority.
  lemma ResumeMeans(s: Sched)
    requires Enabled(s, ResumeScheduler)
    ensures
      var l, r := s.lists, Apply(s, ResumeScheduler);
      && r.suspended == s.suspended - 1 && r.interrupts == s.interrupts && r.deleted == s.deleted
      && (r.suspended > 0 ==> r == s.(suspended := r.suspended))
      && (r.suspended == 0 ==>
            && r.pended == 0 && r.lists.pending == [] && r.lists.Clock() == l.Clock() + s.pended
            && Readies(l, r.lists, Resumed(s))
            && (r.yieldPending <==> s.yieldPending || ReadiesNotBelow(l, Resumed(s))
                                    || (s.pended > 0 && Shares(r.lists))))
  {
    hide Struct, NextIsEarly, Readied, Readies, ReadiesNotBelow, Shares, DrainPending, RunPended, Elements, Reached;
    if s.suspended == 1 {
      ResumeIsExact(s);
      var d := DrainPending(s.(suspended := 0));
      DrainKeeps(s.(suspended := 0));
      DrainAsks(s.(suspended := 0));
      PendedAsk(d);
      RunPendedKeeps(d);
      AsksBoth(s.lists, d.lists, s.pended);
      ResumedEvents(s);
      var r := Apply(s, ResumeScheduler).lists;
      ReadiedMeans(s.lists, r, Resumed(s));
    }
  }

  // Which tasks the second half readies depends on the first only in that some are ready already.
  lemma AsksBoth(l: TaskLists, d: TaskLists, n: nat)
    requires Readied(l, d, Elements(l.pending)) && SameButLists(l, d)
    ensures
      (ReadiesNotBelow(l, Elements(l.pending)) || ReadiesNotBelow(d, Reached(d, n))) <==>
        ReadiesNotBelow(l, Elements(l.pending) + Reached(l, n))
  {
    if ReadiesNotBelow(l, Elements(l.pending) + Reached(l, n)) {
      var t :| t in Elements(l.pending) + Reached(l, n) && l.Blocked(t) && NotBelow(l, t);
      if t !in Elements(l.pending) { assert t in Reached(d, n) && d.Blocked(t) && NotBelow(d, t); }
    }
    if ReadiesNotBelow(d, Reached(d, n)) {
      var t :| t in Reached(d, n) && d.Blocked(t) && NotBelow(d, t);
      assert t in l.place && l.Blocked(t) && NotBelow(l, t) && t in Reached(l, n);
    }
    if ReadiesNotBelow(l, Elements(l.pending)) {
      var t :| t in Elements(l.pending) && l.Blocked(t) && NotBelow(l, t);
      assert t in Elements(l.pending) + Reached(l, n);
    }
  }

  // ---------------------------------------------------------------- events survive ticks

  ghost predicate EventsStay(l: TaskLists, r: TaskLists) {
    forall t :: t in r.onEvent <==> t in l.onEvent && r.Blocked(t)
  }

  lemma {:induction false} DrainEvents(s: Sched)
    requires Sound(s.lists)
    ensures EventsStay(s.lists, DrainPending(s).lists)
    decreases |s.lists.pending|
  {
    hide ReadyHold, DelaysHold, Holds, WakesFrom, NextIsEarly, Wake;
    var l := s.lists;
    EventsAreBlocked(l);
    if l.pending != [] {
      DrainStep(l);
      EventTaken(l, l.pending[0]);
      hide TasksPlaced, EventsMatch;
      DrainEvents(Drained(s));
      DrainKeeps(Drained(s));
    }
  }

  // Waking a task takes it off its event list.
  lemma EventTaken(l: TaskLists, t: Task)
    requires Sound(l) && t in l.place
    ensures Wake(l, t).onEvent == l.onEvent - {t}
  {
    hide ReadyHold, DelaysHold, Holds, TasksPlaced, EventsMatch, WakesFrom, NextIsEarly;
    TakeOutKeepsLists(l, t);
  }

  lemma {:induction false} PendedEvents(s: Sched)
    requires Sound(s.lists)
    ensures EventsStay(s.lists, RunPended(s).lists)
    decreases s.pended
  {
    hide ListsMatch, TasksPlaced, WakesFrom, NextIsEarly, Tick, TickSwitches;
    EventsAreBlocked(s.lists);
    if s.pended > 0 {
      TickIsExact(s.lists);
      RunningHasList(s.lists);
      var m := s.(lists := Tick(s.lists), pended := s.pended - 1,
                  yieldPending := s.yieldPending || TickSwitches(s.lists));
      PendedEvents(m);
      RunPendedKeeps(m);
    }
  }

  lemma ResumedEvents(s: Sched)
    requires Sound(s.lists) && s.suspended == 1
    ensures EventsStay(s.lists, ResumeAll(s).lists)
  {
    hide Struct, NextIsEarly;
    var m := s.(suspended := 0);
    DrainKeeps(m);
    DrainEvents(m);
    PendedEvents(DrainPending(m));
    RunPendedKeeps(DrainPending(m));
  }

  // ---------------------------------------------------------------- the other steps

  lemma AddNewFrame(l: TaskLists, t: Task, p: nat)
    requires Sound(l) && t !in l.priority
    ensures
      var r, q := AddNew(l, t, p), if p < PRIORITIES then p else PRIORITIES - 1;
      && r.priority == l.priority[t := q] && r.place == l.place[t := Ready(q)] && r.due == l.due
      && r.onEvent == l.onEvent && r.pending == l.pending && r.current == l.current
      && r.tasks == l.tasks + 1 && r.tick == l.tick && r.epoch == l.epoch
  {
    var q := if p >= PRIORITIES then PRIORITIES - 1 else p;
    SoundParts(l);
    hide Sound, ListsMatch, AddReady;
    NewInHand(l, t, q);
    hide TasksPlaced;
    var n := l.(priority := l.priority[t := q], tasks := l.tasks + 1);
    assert ListsMatch(n) by { SameLists(l, n); }
    AddReadyFrame(n, t);
  }

  lemma AddNewMeans(l: TaskLists, t: Task, p: nat)
    requires Sound(l) && t !in l.priority
    ensures
      var r := AddNew(l, t, p);
      && ReadyTask(r, t, if p < PRIORITIES then p else PRIORITIES - 1)
      && OnlyChanges(l, r, t) && r.tasks == l.tasks + 1
  {
    NotYet(l, t);
    hide Sound, AddNew, OnlyChanges;
    AddNewFrame(l, t, p);
    FieldsMean(l, AddNew(l, t, p), t);
  }

  // A new task is ready at its priority, or at the greatest there is if that is less, and is counted.
  lemma CreateMeans(s: Sched, t: Task, p: nat)
    requires Enabled(s, Create(t, p))
    ensures
      var l, r := s.lists, Apply(s, Create(t, p)).lists;
      && ReadyTask(r, t, if p < PRIORITIES then p else PRIORITIES - 1)
      && OnlyChanges(l, r, t) && r.tasks == l.tasks + 1
  {
    hide Sound, AddNew, ReadyTask, OnlyChanges;
    AddNewMeans(s.lists, t, p);
  }

  lemma SameLists(l: TaskLists, n: TaskLists)
    requires ListsMatch(l) && n == l.(priority := n.priority, tasks := n.tasks)
    ensures ListsMatch(n)
  {
  }

  lemma NotYet(l: TaskLists, t: Task)
    requires Sound(l) && t !in l.priority
    ensures t !in l.onEvent && t !in l.pending
  {
  }

  lemma TerminateMeans(l: TaskLists, t: Task)
    requires Sound(l) && t in l.place
    ensures
      var r := AddTerminated(TakeOut(l, t), t);
      Deleted(r, t) && OnlyChanges(l, r, t) && r.priority == l.priority && r.tasks == l.tasks
  {
    PendingOnce(l);
    SoundParts(l);
    hide Sound, ListsMatch, TasksPlaced, NoDup, Without, TakeOut;
    TakeOutKeepsLists(l, t);
    TakeOutFrame(l, t);
    MovedMeans(l, AddTerminated(TakeOut(l, t), t), t, Terminated);
  }

  lemma DeleteMeans(s: Sched, t: Task)
    requires Enabled(s, Delete(t))
    ensures
      var l, r := s.lists, Apply(s, Delete(t));
      && Deleted(r.lists, t) && OnlyChanges(l, r.lists, t) && r.lists.priority == l.priority
      && r.lists.tasks == l.tasks && r.deleted == s.deleted + 1 && r.yieldPending == s.yieldPending
  {
    hide Struct, NextIsEarly, TakeOut, AddTerminated, Deleted, OnlyChanges;
    TerminateMeans(s.lists, t);
  }

  lemma FreeMeans(l: TaskLists, t: Task)
    requires Sound(l) && t in l.place && l.tasks > 0
    ensures
      var r := Free(l, t);
      t !in r.priority && t !in r.place && OnlyChanges(l, r, t) && r.tasks == l.tasks - 1
  {
    PendingOnce(l);
    SoundParts(l);
    WithoutFacts(l.pending, t);
    hide Sound, ListsMatch, TasksPlaced, NoDup, Without, TakeOut, OnlyChanges;
    TakeOutFrame(l, t);
    FieldsMean(l, Free(l, t), t);
  }

  // The clean-up frees one deleted task, if there is one, and none else.
  lemma ReapMeans(s: Sched) returns (t: Task)
    requires Enabled(s, Reap)
    ensures SomeDeleted(s.lists) ==>
      t in s.lists.place && s.lists.place[t] == Terminated && IsFreed(s, Apply(s, Reap), t)
    ensures !SomeDeleted(s.lists) ==> Apply(s, Reap) == s
  {
    TerminatedListed(s.lists);
    t := 0;
    hide Struct, NextIsEarly;
    if SomeDeleted(s.lists) {
      t := s.lists.terminated[0];
      HeadIsFreed(s);
    } else {
      NothingToFree(s);
    }
  }

  ghost predicate SomeDeleted(l: TaskLists) {
    exists t :: t in l.place && l.place[t] == Terminated
  }

  lemma NothingToFree(s: Sched)
    requires Enabled(s, Reap) && s.lists.terminated == []
    ensures Apply(s, Reap) == s
  {
    hide Sound, Free;
  }

  lemma HeadIsFreed(s: Sched)
    requires Enabled(s, Reap) && s.lists.terminated != []
    ensures IsFreed(s, Apply(s, Reap), s.lists.terminated[0])
  {
    hide Struct, NextIsEarly, Free, OnlyChanges;
    ReapHead(s.lists);
    FreeMeans(s.lists, s.lists.terminated[0]);
  }

  ghost predicate IsFreed(s: Sched, r: Sched, t: Task) {
    && t !in r.lists.priority && t !in r.lists.place && OnlyChanges(s.lists, r.lists, t)
    && r.lists.tasks == s.lists.tasks - 1 && r.deleted == s.deleted - 1
  }

  lemma ReapHead(l: TaskLists)
    requires Sound(l) && l.terminated != []
    ensures l.terminated[0] in l.place && l.place[l.terminated[0]] == Terminated && l.tasks > 0
  {
    TerminatedHead(l);
  }

  lemma TerminatedListed(l: TaskLists)
    requires Sound(l)
    ensures forall t :: t in l.terminated <==> t in l.place && l.place[t] == Terminated
    ensures l.terminated != [] ==> l.terminated[0] in l.terminated
  {
    assert Holds(l.terminated, l.place, Terminated);
  }

  lemma ReprioritiseMeans(l: TaskLists, t: Task, p: nat)
    requires Sound(l) && t in l.priority && p < PRIORITIES
    ensures
      var r := Reprioritise(l, t, p);
      && t in r.priority && r.priority[t] == p && OnlyChanges(l, r, t)
      && (l.IsReady(t) ==> ReadyTask(r, t, p))
      && (!l.IsReady(t) ==> r == l.(priority := l.priority[t := p]))
  {
    hide OnlyChanges, Sound;
    if l.IsReady(t) {
      ReadyReprioritised(l, t, p);
    } else {
      FieldsMean(l, Reprioritise(l, t, p), t);
    }
  }

  lemma ReadyReprioritised(l: TaskLists, t: Task, p: nat)
    requires Sound(l) && t in l.priority && p < PRIORITIES && l.IsReady(t)
    ensures OnlyChanges(l, Reprioritise(l, t, p), t) && ReadyTask(Reprioritise(l, t, p), t, p)
  {
    PendingOnce(l);
    hide Sound, Reprioritise, OnlyChanges;
    ReprioritiseFrame(l, t, p);
    WithoutFacts(l.pending, t);
    hide Without, NoDup;
    FieldsMean(l, Reprioritise(l, t, p), t);
  }

  lemma ReprioritiseFrame(l: TaskLists, t: Task, p: nat)
    requires Sound(l) && t in l.priority && p < PRIORITIES && l.IsReady(t)
    ensures
      var r := Reprioritise(l, t, p);
      && r.priority == l.priority[t := p] && r.place == (l.place - {t})[t := Ready(p)] && r.due == l.due
      && r.onEvent == l.onEvent - {t} && r.pending == Without(l.pending, t) && r.current == l.current
      && r.tasks == l.tasks && r.tick == l.tick && r.epoch == l.epoch
  {
    SoundParts(l);
    hide Sound, ListsMatch, TasksPlaced, NoDup, Without, TakeOut, AddReady;
    TakeOutKeepsLists(l, t);
    TakeOutFrame(l, t);
    PriorityInHand(TakeOut(l, t), t, p);
    var v := TakeOut(l, t).(priority := l.priority[t := p]);
    assert ListsMatch(v) by { SameLists(TakeOut(l, t), v); }
    AddReadyFrame(v, t);
  }

  // A priority is changed, and a ready task is ready at the new one.
  lemma SetPriorityMeans(s: Sched, t: Task, p: nat)
    requires Enabled(s, SetPriority(t, p))
    ensures
      var l, r := s.lists, Apply(s, SetPriority(t, p)).lists;
      && t in r.priority && r.priority[t] == p && OnlyChanges(l, r, t)
      && (l.IsReady(t) ==> ReadyTask(r, t, p))
      && (!l.IsReady(t) ==> r == l.(priority := l.priority[t := p]))
  {
    hide Struct, NextIsEarly, Reprioritise, ReadyTask, OnlyChanges;
    ReprioritiseMeans(s.lists, t, p);
  }

  // A suspended scheduler does not switch but remembers to; otherwise a task runs that no ready task is
  // above, and nothing else about any task changes.
  lemma SwitchMeans(s: Sched)
    requires Enabled(s, SwitchContext)
    ensures
      var l, r := s.lists, Apply(s, SwitchContext);
      && NoneChange(l, r.lists)
      && (s.suspended > 0 ==> r == s.(yieldPending := true))
      && (s.suspended == 0 ==>
            && !r.yieldPending && l.IsReady(r.lists.current) && r.lists.current in l.priority
            && forall t :: l.IsReady(t) ==> t in l.priority && l.priority[t] <= l.priority[r.lists.current])
  {
    hide Struct, NextIsEarly;
    if s.suspended == 0 {
      SelectKeeps(s.lists);
      SwitchPicksHighest(s.lists);
    }
  }

  // Resetting finds the first wake time of the present epoch, or the greatest tick count.
  lemma ResetMeans(s: Sched)
    requires Enabled(s, ResetUnblockTime)
    ensures
      var l, r := s.lists, Apply(s, ResetUnblockTime).lists;
      && r == l.(next := r.next) && NextIsFirst(r)
  {
    FirstIsNext(s.lists);
  }

  // xNextTaskUnblockTime is the least wake time there is in this epoch.
  ghost predicate NextIsFirst(l: TaskLists) {
    if forall t :: l.Blocked(t) ==> l.place[t].list != l.cur then l.next == MAX_DELAY
    else
      && (exists t :: l.Blocked(t) && l.place[t].list == l.cur && t in l.value && l.value[t] == l.next)
      && (forall t :: l.Blocked(t) && l.place[t].list == l.cur ==> t in l.value && l.next <= l.value[t])
  }

  lemma FirstIsNext(l: TaskLists)
    requires Sound(l)
    ensures l.cur < 2 && DelaysInOrder(l.delays, l.value) && NextIsFirst(l.(next := FirstWake(l)))
  {
    hide ReadyHold;
    var q := l.delays[l.cur];
    assert Holds(q, l.place, Delay(l.cur)) && InWakeOrder(q, l.value);
    if q != [] {
      assert q[0] in q;
      forall t | t in q ensures l.value[q[0]] <= l.value[t] { FirstIsLeast(q, l.value, t); }
    }
  }

  // So does a tick that looks at the delayed tasks.
  lemma {:induction false} PopDueNext(s: TaskLists)
    requires Struct(s, {}, 0)
    ensures
      var r := PopDue(s);
      Sound(r) && r.cur < 2 && DelaysInOrder(r.delays, r.value) && r.next == FirstWake(r) && NextIsFirst(r)
    decreases |s.delays[s.cur]|
  {
    hide ReadyHold, DelaysHold, Holds, TasksPlaced, EventsMatch, DelaysInOrder, NextIsEarly;
    PopDueWakes(s);
    EarlierFrom(PopDue(s));
    if s.delays[s.cur] != [] {
      PopStep(s);
      if s.value[s.delays[s.cur][0]] <= s.tick { PopDueNext(Wake(s, s.delays[s.cur][0])); }
    }
    FirstIsNext(PopDue(s));
  }

  // ---------------------------------------------------------------- a delay over a run

  // Neither an event nor a deletion.
  predicate LeavesAlone(step: Step, t: Task) {
    step != EventHead(t) && step != UnorderedEvent(t) && step != Delete(t)
  }

  // Before its time a blocked task stays blocked, unless it is woken by an event; the step that takes
  // the clock to its time readies it.
  lemma StepWaits(s: Sched, step: Step, t: Task, at: nat)
    requires Enabled(s, step) && LeavesAlone(step, t)
    requires BlockedTask(s.lists, t, at) && s.lists.Clock() < at && t !in s.lists.pending
    ensures
      var r := Apply(s, step).lists;
      if r.Clock() < at then BlockedTask(r, t, at) && t !in r.pending else r.IsReady(t)
  {
    hide Enabled, Apply, Sound, Untouched;
    var l, r := s.lists, Apply(s, step).lists;
    if Untouched(l, r, t) && r.Clock() == l.Clock() { UntouchedWaits(l, r, t, at); }
    match step
    case Create(u, p) => CreateMeans(s, u, p); CreatedIsNew(s, u, p, t);
    case BlockFor(ticks, e) => BlockMeans(s, ticks, e); CurrentIsReady(s, ticks, e);
    case EventHead(u) => EventMeans(s, u);
    case UnorderedEvent(u) => UnorderedMeans(s, u);
    case TickInterrupt => TickMeans(s); TickPending(s, t);
    case SuspendAll => SuspendMeans(s);
    case ResumeScheduler => ResumeMeans(s);
    case SwitchContext => SwitchMeans(s);
    case Delete(u) => DeleteMeans(s, u);
    case ResetUnblockTime => ResetMeans(s);
    case Reap => NothingReaped(s, t);
    case SetPriority(u, p) => SetPriorityMeans(s, u, p);
  }

  // A task freed is not blocked.
  lemma NothingReaped(s: Sched, t: Task)
    requires Enabled(s, Reap) && s.lists.Blocked(t)
    ensures Untouched(s.lists, Apply(s, Reap).lists, t) && Apply(s, Reap).lists.Clock() == s.lists.Clock()
  {
    hide Enabled, Apply, Untouched;
    var u := ReapMeans(s);
    if !SomeDeleted(s.lists) { SameUntouched(s.lists, t); }
  }

  lemma SameUntouched(l: TaskLists, t: Task)
    ensures Untouched(l, l, t)
  {
  }

  lemma UntouchedWaits(l: TaskLists, r: TaskLists, t: Task, at: nat)
    requires Untouched(l, r, t) && BlockedTask(l, t, at)
    ensures BlockedTask(r, t, at) && (t in r.pending <==> t in l.pending)
  {
  }

  lemma CreatedIsNew(s: Sched, u: Task, p: nat, t: Task)
    requires Enabled(s, Create(u, p)) && s.lists.Blocked(t)
    ensures u != t
  {
    hide ReadyHold, DelaysHold;
  }

  lemma CurrentIsReady(s: Sched, ticks: nat, e: bool)
    requires Enabled(s, BlockFor(ticks, e))
    ensures s.lists.IsReady(s.lists.current)
  {
    hide Sound;
  }

  lemma TickPending(s: Sched, t: Task)
    requires Enabled(s, TickInterrupt) && t !in s.lists.pending
    ensures t !in Apply(s, TickInterrupt).lists.pending
  {
    hide Struct, NextIsEarly, Tick;
    if s.suspended == 0 { TickIsExact(s.lists); }
  }

  // All states before the clock has reached `at` have t blocked, and the first that has finds it ready.
  ghost predicate ReadiedOnTime(s: Sched, steps: seq<Step>, t: Task, at: nat)
    requires Runs(s, steps)
    decreases |steps|
  {
    if s.lists.Clock() >= at then s.lists.IsReady(t)
    else
      && BlockedTask(s.lists, t, at)
      && (steps == [] || ReadiedOnTime(Apply(s, steps[0]), steps[1..], t, at))
  }

  lemma {:induction false} WaitsUntil(s: Sched, steps: seq<Step>, t: Task, at: nat)
    requires Inv(s) && Runs(s, steps) && (forall i :: 0 <= i < |steps| ==> LeavesAlone(steps[i], t))
    requires BlockedTask(s.lists, t, at) && s.lists.Clock() < at && t !in s.lists.pending
    ensures ReadiedOnTime(s, steps, t, at)
    decreases |steps|
  {
    hide Inv, Enabled, Apply;
    if steps != [] {
      StepWaits(s, steps[0], t, at);
      StepKeepsInv(s, steps[0]);
      var r := Apply(s, steps[0]);
      if r.lists.Clock() < at { WaitsUntil(r, steps[1..], t, at); }
    }
  }

  // A task that blocks for n ticks is ready again exactly when the clock has moved on by n, whatever
  // happens to other tasks, unless an event or a deletion comes before.
  lemma DelayIsExact(s: Sched, n: nat, onEvent: bool, steps: seq<Step>)
    requires Enabled(s, BlockFor(n, onEvent)) && n > 0
    requires Runs(Apply(s, BlockFor(n, onEvent)), steps)
    requires forall i :: 0 <= i < |steps| ==> LeavesAlone(steps[i], s.lists.current)
    ensures ReadiedOnTime(Apply(s, BlockFor(n, onEvent)), steps, s.lists.current, s.lists.Clock() + n)
  {
    hide Inv, Runs, ReadiedOnTime, Apply;
    BlockMeans(s, n, onEvent);
    StepKeepsInv(s, BlockFor(n, onEvent));
    WaitsUntil(Apply(s, BlockFor(n, onEvent)), steps, s.lists.current, s.lists.Clock() + n);
  }
}
