// timers.c: software timers kept in two sorted lists, one for the present wrap of the tick count
// and one for the next, served by a daemon task that may run late.
//
// Times in these values are unbounded tick counts; the code sees only what TickCount leaves of
// them, and every decision below is made on that. Proved is where a timer is placed, that switching
// the lists terminates, and that an auto-reload timer gets exactly its callbacks, however late the
// daemon runs within a wrap.
module Timers {
  import opened Rings
  import opened Timeouts

  type Timer = nat
  type Period = p: nat | 0 < p < N witness 1

  // ---------------------------------------------------------------- where a timer is placed

  datatype Place = ProcessNow | InCurrent | InOverflow

  // prvInsertTimerInActiveList
  function Placement(nextExpiryTime: nat, timeNow: nat, commandTime: nat, period: Period, promoted: bool): Place
    requires nextExpiryTime < N && timeNow < N && commandTime < N
  {
    if nextExpiryTime <= timeNow then
      if Difference(timeNow, commandTime, promoted) >= period then ProcessNow else InOverflow
    else if timeNow < commandTime && nextExpiryTime >= commandTime then ProcessNow
    else InCurrent
  }

  function Placed(command: nat, now: nat, period: Period, promoted: bool): Place {
    Placement(TickCount(command + period), TickCount(now), TickCount(command), period, promoted)
  }

  // Where the timer belongs by the unbounded clock.
  function Proper(command: nat, now: nat, period: Period): Place {
    if command + period <= now then ProcessNow
    else if (command + period) / N == now / N then InCurrent
    else InOverflow
  }

  // Both the command and the expiry lie on either side of a wrap, and the difference is negative.
  predicate Misjudged(command: nat, now: nat, period: Period, promoted: bool) {
    promoted && TickCount(now) < TickCount(command) && TickCount(command + period) <= TickCount(now)
  }

  lemma EpochOf(a: nat, b: nat)
    requires a <= b < a + N
    ensures (b / N == a / N && TickCount(b) - TickCount(a) == b - a)
            || (b / N == a / N + 1 && TickCount(a) - TickCount(b) == N - (b - a))
  {
    Split(a);
    Split(b);
    assert b / N == a / N || b / N == a / N + 1;
  }

  // A command younger than one wrap is placed where it belongs, unless the difference of the two
  // ticks is taken in int and comes out negative.
  lemma PlacementIsExact(command: nat, now: nat, period: Period, promoted: bool)
    requires command <= now < command + N
    ensures Placed(command, now, period, promoted) == Proper(command, now, period) <==>
            !Misjudged(command, now, period, promoted)
    ensures Proper(command, now, period) == InOverflow ==> (command + period) / N == now / N + 1
  {
    hide TickCount;
    TickCountBelow(command);
    TickCountBelow(now);
    TickCountBelow(command + period);
    EpochOf(command, now);
    EpochOf(command, command + period);
    if command + period <= now { EpochOf(command + period, now); } else { EpochOf(now, command + period); }
  }

  // A timer that is misjudged has expired already and goes on the list for the next wrap.
  lemma MisjudgedComesAWrapLate(command: nat, now: nat, period: Period)
    requires command <= now < command + N && Misjudged(command, now, period, true)
    ensures command + period <= now && Placed(command, now, period, true) == InOverflow
  {
    hide TickCount;
    PlacementIsExact(command, now, period, false);
    EpochOf(command, now);
    EpochOf(command, command + period);
  }

  lemma MisjudgedCanHappen()
    ensures Misjudged(65530, 65640, 100, true) && 65530 + 100 <= 65640 < 65530 + N
  {
  }

  // ---------------------------------------------------------------- the daemon's state

  // An active timer; its xItemValue is what TickCount leaves of the expiry time.
  datatype Entry = Entry(expiry: nat, timer: Timer)

  datatype Command =
    | Start(timer: Timer, time: nat)            // and reset, and their variants
    | ChangePeriod(timer: Timer, period: Period)
    | Stop(timer: Timer)                        // and delete

  datatype Callback = Callback(timer: Timer, due: nat, at: nat)

  datatype Daemon = Daemon(
    current: seq<Entry>,             // *pxCurrentTimerList
    overflow: seq<Entry>,            // *pxOverflowTimerList
    queue: seq<Command>,             // xTimerQueue
    capacity: nat,                   // its length
    last: nat,                       // xLastTime is what TickCount leaves of it
    clock: nat,                      // the unbounded tick count
    period: map<Timer, Period>,      // xTimerPeriodInTicks of the timers created
    auto: set<Timer>,                // those with uxAutoReload
    log: seq<Callback>)              // history: the callbacks made
  {
    function PeriodOf(t: Timer): Period { if t in period then period[t] else 1 }
  }

  function Values(list: seq<Entry>): (values: seq<nat>)
    ensures |values| == |list|
  {
    seq(|list|, i requires 0 <= i < |list| => TickCount(list[i].expiry))
  }

  // vListInsert
  function Insert(list: seq<Entry>, e: Entry): seq<Entry> {
    Paste(list, FirstGreater(Values(list), TickCount(e.expiry)), e)
  }

  // uxListRemove of the timer's item, if it is in the list.
  function Remove(list: seq<Entry>, t: Timer): seq<Entry> {
    if list == [] then [] else if list[0].timer == t then list[1..] else [list[0]] + Remove(list[1..], t)
  }

  // xTimerGenericCommand without waiting: a command that finds the queue full is dropped.
  function Posted(s: Daemon, c: Command): Daemon {
    if |s.queue| < s.capacity then s.(queue := s.queue + [c]) else s
  }

  // One turn of the loop of prvSwitchTimerLists.
  function Expire(s: Daemon): Daemon
    requires s.current != []
  {
    var e := s.current[0];
    var next := e.expiry + s.PeriodOf(e.timer);
    var s' := s.(current := s.current[1..], log := s.log + [Callback(e.timer, e.expiry, s.clock)]);
    if e.timer !in s.auto then s'
    else if TickCount(next) > TickCount(e.expiry) then s'.(current := Insert(s'.current, Entry(next, e.timer)))
    else Posted(s', Start(e.timer, e.expiry))
  }

  // The ticks from the times on a list to the wrap.
  function Room(list: seq<Entry>): nat {
    if list == [] then 0 else N - TickCount(list[0].expiry) + Room(list[1..])
  }

  lemma {:induction false} RoomAdds(a: seq<Entry>, b: seq<Entry>)
    ensures Room(a + b) == Room(a) + Room(b)
  {
    if a == [] {
      assert a + b == b;
    } else {
      assert (a + b)[1..] == a[1..] + b;
      RoomAdds(a[1..], b);
    }
  }

  lemma RoomInserted(list: seq<Entry>, e: Entry)
    ensures Room(Insert(list, e)) == Room(list) + N - TickCount(e.expiry)
  {
    var p := FirstGreater(Values(list), TickCount(e.expiry));
    RoomAdds(list[..p] + [e], list[p..]);
    RoomAdds(list[..p], [e]);
    RoomAdds(list[..p], list[p..]);
    assert list[..p] + list[p..] == list;
  }

  lemma RoomHead(list: seq<Entry>)
    requires list != []
    ensures Room(list) == N - TickCount(list[0].expiry) + Room(list[1..])
  {
  }

  // A timer that is put back moves strictly closer to the wrap, so the loop ends.
  lemma ExpireMakesProgress(s: Daemon)
    requires s.current != []
    ensures Room(Expire(s).current) < Room(s.current)
  {
    hide TickCount, Insert, Room;
    var e := s.current[0];
    RoomHead(s.current);
    TickCountBelow(e.expiry);
    RoomInserted(s.current[1..], Entry(e.expiry + s.PeriodOf(e.timer), e.timer));
  }

  function ExpireAll(s: Daemon): (s': Daemon)
    ensures s'.current == []
    decreases Room(s.current)
  {
    if s.current == [] then s
    else
      ExpireMakesProgress(s);
      ExpireAll(Expire(s))
  }

  // prvSwitchTimerLists
  function Switched(s: Daemon): Daemon {
    var s' := ExpireAll(s);
    s'.(current := s'.overflow, overflow := s'.current)
  }

  // prvSampleTimeNow
  predicate Switches(s: Daemon) { TickCount(s.clock) < TickCount(s.last) }

  function Sampled(s: Daemon): Daemon {
    (if Switches(s) then Switched(s) else s).(last := s.clock)
  }

  // A timer that expired at the given time is placed by the time sampled last; a callback due
  // already is left to the caller.
  function Inserted(s: Daemon, t: Timer, command: nat, place: Place): Daemon {
    var e := Entry(command + s.PeriodOf(t), t);
    match place
    case ProcessNow => s
    case InCurrent => s.(current := Insert(s.current, e))
    case InOverflow => s.(overflow := Insert(s.overflow, e))
  }

  // prvProcessExpiredTimer, for the head of the current list
  function Expired(s: Daemon, promoted: bool): Daemon
    requires s.current != []
  {
    var e := s.current[0];
    var s' := s.(current := s.current[1..], log := s.log + [Callback(e.timer, e.expiry, s.last)]);
    if e.timer !in s.auto then s'
    else
      var place := Placed(e.expiry, s.last, s.PeriodOf(e.timer), promoted);
      if place == ProcessNow then Posted(s', Start(e.timer, e.expiry))
      else Inserted(s', e.timer, e.expiry, place)
  }

  // One turn of the daemon's outer loop: prvGetNextExpireTime and prvProcessTimerOrBlockTask.
  function Served(s: Daemon, promoted: bool): Daemon {
    var s' := Sampled(s);
    if !Switches(s) && s.current != [] && TickCount(s.current[0].expiry) <= TickCount(s.clock)
    then Expired(s', promoted) else s'
  }

  // The command at the head is received, and its timer leaves the list it is on.
  function Taken(s: Daemon): Daemon
    requires s.queue != []
  {
    var t := s.queue[0].timer;
    s.(queue := s.queue[1..], current := Remove(s.current, t), overflow := Remove(s.overflow, t))
  }

  // One command of prvProcessReceivedCommands.
  function Handled(s: Daemon, promoted: bool): Daemon
    requires s.queue != []
  {
    var command := s.queue[0];
    var t := command.timer;
    var s' := Sampled(Taken(s));
    match command
    case Start(_, time) => Started(s', t, time, promoted)
    case ChangePeriod(_, period) =>
      var changed := s'.(period := s'.period[t := period]);
      Inserted(changed, t, s'.last, Placed(s'.last, s'.last, period, promoted))
    case Stop(_) => s'
  }

  function Started(s: Daemon, t: Timer, time: nat, promoted: bool): Daemon {
    var place := Placed(time, s.last, s.PeriodOf(t), promoted);
    var s' := Inserted(s, t, time, place);
    if place != ProcessNow then s'
    else
      var due := time + s.PeriodOf(t);
      var called := s'.(log := s'.log + [Callback(t, due, s.last)]);
      if t in s.auto then Posted(called, Start(t, due)) else called
  }

  // ---------------------------------------------------------------- the two lists

  // A list in the order of its values, which for timer t are times of this epoch.
  ghost predicate InEpoch(list: seq<Entry>, t: Timer, epoch: nat) {
    Sorted(Values(list)) && forall i :: 0 <= i < |list| && list[i].timer == t ==> list[i].expiry / N == epoch
  }

  // Both lists are in order; of timer t, the present list holds an expiry time of this wrap, the other
  // list one of the next, and no start command comes from the future. Nothing is said of the times of
  // other timers, which may have been misjudged.
  ghost predicate Good(s: Daemon, t: Timer) {
    && s.last <= s.clock
    && InEpoch(s.current, t, s.last / N) && InEpoch(s.overflow, t, s.last / N + 1)
    && (forall i :: 0 <= i < |s.queue| && s.queue[i].Start? && s.queue[i].timer == t ==> s.queue[i].time <= s.clock)
  }

  lemma InsertInEpoch(list: seq<Entry>, e: Entry, t: Timer, epoch: nat)
    requires InEpoch(list, t, epoch) && (e.timer == t ==> e.expiry / N == epoch)
    ensures InEpoch(Insert(list, e), t, epoch)
  {
    hide TickCount;
    var v := TickCount(e.expiry);
    var p := FirstGreater(Values(list), v);
    InsertSorted(Values(list), v);
    assert Values(Insert(list, e)) == Paste(Values(list), p, v);
  }

  lemma TailInEpoch(list: seq<Entry>, t: Timer, epoch: nat)
    requires InEpoch(list, t, epoch) && list != []
    ensures InEpoch(list[1..], t, epoch)
  {
    hide TickCount;
    assert Values(list[1..]) == Values(list)[1..];
  }

  // Where the item of timer t is, if it is in the list.
  function PlaceOf(list: seq<Entry>, t: Timer): (p: nat)
    ensures p <= |list|
  {
    if list == [] || list[0].timer == t then 0 else 1 + PlaceOf(list[1..], t)
  }

  // Taking one item out keeps the others in place.
  lemma {:induction false} RemoveIsCut(list: seq<Entry>, t: Timer)
    ensures Remove(list, t) == if PlaceOf(list, t) < |list| then Cut(list, PlaceOf(list, t)) else list
  {
    if list != [] && list[0].timer != t {
      RemoveIsCut(list[1..], t);
      TailCut(list, PlaceOf(list[1..], t));
    }
  }

  lemma TailCut(list: seq<Entry>, p: nat)
    requires list != [] && p <= |list[1..]|
    ensures p < |list[1..]| ==> [list[0]] + Cut(list[1..], p) == Cut(list, p + 1)
    ensures [list[0]] + list[1..] == list
  {
  }

  lemma CutInEpoch(list: seq<Entry>, p: nat, t: Timer, epoch: nat)
    requires InEpoch(list, t, epoch) && p < |list|
    ensures InEpoch(Cut(list, p), t, epoch)
  {
    hide TickCount;
    assert Values(Cut(list, p)) == Cut(Values(list), p);
  }

  lemma RemoveInEpoch(list: seq<Entry>, u: Timer, t: Timer, epoch: nat)
    requires InEpoch(list, t, epoch)
    ensures InEpoch(Remove(list, u), t, epoch)
  {
    hide InEpoch, Remove, PlaceOf;
    RemoveIsCut(list, u);
    if PlaceOf(list, u) < |list| { CutInEpoch(list, PlaceOf(list, u), t, epoch); }
  }

  lemma ExpireIsGood(s: Daemon, t: Timer)
    requires Good(s, t) && s.current != [] && s.clock / N > s.last / N
    ensures Good(Expire(s), t)
  {
    hide TickCount, InEpoch, Insert;
    var e := s.current[0];
    var next := e.expiry + s.PeriodOf(e.timer);
    TailInEpoch(s.current, t, s.last / N);
    HeadInEpoch(s.current, t, s.last / N);
    EpochOf(e.expiry, next);
    EarlierEpoch(e.expiry, s.clock);
    if TickCount(next) > TickCount(e.expiry) {
      InsertInEpoch(s.current[1..], Entry(next, e.timer), t, s.last / N);
    }
  }

  lemma HeadInEpoch(list: seq<Entry>, t: Timer, epoch: nat)
    requires InEpoch(list, t, epoch) && list != []
    ensures list[0].timer == t ==> list[0].expiry / N == epoch
    ensures forall i :: 0 <= i < |list| ==> TickCount(list[0].expiry) <= TickCount(list[i].expiry)
  {
    forall i | 0 <= i < |list| ensures TickCount(list[0].expiry) <= TickCount(list[i].expiry) {
      assert Values(list)[0] <= Values(list)[i];
    }
  }

  lemma EarlierEpoch(a: nat, b: nat)
    ensures a / N < b / N ==> a < b
    ensures a / N == b / N ==> (a <= b <==> TickCount(a) <= TickCount(b))
  {
    Split(a);
    Split(b);
  }

  lemma {:induction false} ExpireAllIsGood(s: Daemon, t: Timer)
    requires Good(s, t) && s.clock / N > s.last / N
    ensures Good(ExpireAll(s), t) && ExpireAll(s).last == s.last && ExpireAll(s).clock == s.clock
    decreases Room(s.current)
  {
    hide Good, Expire;
    if s.current != [] {
      ExpireIsGood(s, t);
      ExpireMakesProgress(s);
      ExpireKeeps(s);
      ExpireAllIsGood(Expire(s), t);
    }
  }

  lemma ExpireKeeps(s: Daemon)
    requires s.current != []
    ensures Expire(s).last == s.last && Expire(s).clock == s.clock
    ensures Expire(s).period == s.period && Expire(s).auto == s.auto
  {
  }

  lemma SampledIsGood(s: Daemon, t: Timer)
    requires Good(s, t) && s.clock < s.last + N
    ensures Good(Sampled(s), t) && Sampled(s).last == Sampled(s).clock == s.clock
  {
    hide TickCount, InEpoch, ExpireAll;
    EpochOf(s.last, s.clock);
    if Switches(s) {
      ExpireAllIsGood(s, t);
      assert InEpoch([], t, s.clock / N + 1) by { NothingInEpoch(t, s.clock / N + 1); }
    }
  }

  lemma NothingInEpoch(t: Timer, epoch: nat)
    ensures InEpoch([], t, epoch)
  {
  }

  lemma InsertedIsGood(s: Daemon, u: Timer, command: nat, promoted: bool, t: Timer)
    requires Good(s, t)
    requires u == t ==> command <= s.last < command + N && !Misjudged(command, s.last, s.PeriodOf(t), promoted)
    ensures Good(Inserted(s, u, command, Placed(command, s.last, s.PeriodOf(u), promoted)), t)
  {
    hide TickCount, InEpoch, Insert, Placed;
    var period := s.PeriodOf(u);
    if u == t { PlacementIsExact(command, s.last, period, promoted); }
    var e := Entry(command + period, u);
    match Placed(command, s.last, period, promoted)
    case ProcessNow =>
    case InCurrent => InsertInEpoch(s.current, e, t, s.last / N);
    case InOverflow => InsertInEpoch(s.overflow, e, t, s.last / N + 1);
  }

  lemma PostedIsGood(s: Daemon, c: Command, t: Timer)
    requires Good(s, t) && (c.Start? && c.timer == t ==> c.time <= s.clock)
    ensures Good(Posted(s, c), t)
  {
    hide InEpoch;
  }

  // The head of the current list, if it is t's and has expired, did so within this wrap.
  lemma HeadIsTimely(s: Daemon, promoted: bool, t: Timer)
    requires Good(s, t) && s.current != [] && TickCount(s.current[0].expiry) <= TickCount(s.last)
    requires s.current[0].timer == t
    ensures s.current[0].expiry <= s.last < s.current[0].expiry + N
    ensures !Misjudged(s.current[0].expiry, s.last, s.PeriodOf(t), promoted)
  {
    hide TickCount, InEpoch;
    var e := s.current[0];
    HeadInEpoch(s.current, t, s.last / N);
    EarlierEpoch(e.expiry, s.last);
    Split(e.expiry);
    Split(s.last);
    TickCountBelow(s.last);
  }

  lemma ExpiredIsGood(s: Daemon, promoted: bool, t: Timer)
    requires Good(s, t) && s.current != [] && TickCount(s.current[0].expiry) <= TickCount(s.last)
    ensures Good(Expired(s, promoted), t)
  {
    hide TickCount, InEpoch, Inserted, Misjudged, Placed;
    var e := s.current[0];
    TailInEpoch(s.current, t, s.last / N);
    if e.timer == t { HeadIsTimely(s, promoted, t); }
    var s' := s.(current := s.current[1..], log := s.log + [Callback(e.timer, e.expiry, s.last)]);
    InsertedIsGood(s', e.timer, e.expiry, promoted, t);
    PostedIsGood(s', Start(e.timer, e.expiry), t);
  }

  // ---------------------------------------------------------------- steps and runs

  datatype Step =
    | Advance(ticks: nat)            // time passes
    | Post(command: Command)         // a task or an interrupt sends a command
    | Serve                          // the daemon looks at its lists
    | Handle                         // the daemon takes a command

  predicate Enabled(s: Daemon, step: Step) {
    match step
    case Advance(_) => true
    case Post(command) => command.Start? ==> command.time == s.clock
    case Serve => true
    case Handle => s.queue != []
  }

  function Apply(s: Daemon, step: Step, promoted: bool): Daemon
    requires Enabled(s, step)
  {
    match step
    case Advance(ticks) => s.(clock := s.clock + ticks)
    case Post(command) => Posted(s, command)
    case Serve => Served(s, promoted)
    case Handle => Handled(s, promoted)
  }

  // The daemon samples the time within a wrap of the last sample, and takes a start command of timer t
  // within a wrap of its time.
  predicate Timely(s: Daemon, step: Step, t: Timer)
    requires Enabled(s, step)
  {
    match step
    case Advance(_) => true
    case Post(_) => true
    case Serve => s.clock < s.last + N
    case Handle =>
      s.clock < s.last + N && (s.queue[0].Start? && s.queue[0].timer == t ==> s.clock < s.queue[0].time + N)
  }

  // It takes a start command of timer t that is misjudged, as may happen if differences are taken in int.
  predicate Misjudges(s: Daemon, step: Step, promoted: bool, t: Timer)
    requires Enabled(s, step)
  {
    step.Handle? && (var c := s.queue[0];
      c.Start? && c.timer == t && Misjudged(c.time, s.clock, s.PeriodOf(t), promoted))
  }

  // Where the command to start timer t again finds the queue full: in one turn of the switch, in all of
  // it, for the head of the current list, and when a start command is taken late.
  predicate ExpireDrops(s: Daemon, t: Timer)
    requires s.current != []
  {
    var e := s.current[0];
    && e.timer == t && t in s.auto && |s.queue| >= s.capacity
    && TickCount(e.expiry + s.PeriodOf(t)) <= TickCount(e.expiry)
  }

  predicate SwitchDrops(s: Daemon, t: Timer)
    decreases Room(s.current)
  {
    s.current != [] && (ExpireMakesProgress(s); ExpireDrops(s, t) || SwitchDrops(Expire(s), t))
  }

  predicate ExpiredDrops(s: Daemon, promoted: bool, t: Timer)
    requires s.current != []
  {
    var e := s.current[0];
    && e.timer == t && t in s.auto && |s.queue| >= s.capacity
    && Placed(e.expiry, s.last, s.PeriodOf(t), promoted) == ProcessNow
  }

  predicate StartDrops(s: Daemon, time: nat, promoted: bool, t: Timer) {
    t in s.auto && |s.queue| >= s.capacity && Placed(time, s.last, s.PeriodOf(t), promoted) == ProcessNow
  }

  // The step drops such a command.
  predicate Drops(s: Daemon, step: Step, promoted: bool, t: Timer)
    requires Enabled(s, step)
  {
    match step
    case Advance(_) => false
    case Post(_) => false
    case Serve => ServeDrops(s, promoted, t)
    case Handle => HandleDrops(s, promoted, t)
  }

  predicate ServeDrops(s: Daemon, promoted: bool, t: Timer) {
    if Switches(s) then SwitchDrops(s, t)
    else
      && s.current != [] && TickCount(s.current[0].expiry) <= TickCount(s.clock)
      && ExpiredDrops(Sampled(s), promoted, t)
  }

  predicate HandleDrops(s: Daemon, promoted: bool, t: Timer)
    requires s.queue != []
  {
    var c := s.queue[0];
    || (Switches(Taken(s)) && SwitchDrops(Taken(s), t))
    || (c.Start? && c.timer == t && StartDrops(Sampled(Taken(s)), c.time, promoted, t))
  }

  lemma ExpireAllKeeps(s: Daemon)
    ensures ExpireAll(s).period == s.period && ExpireAll(s).auto == s.auto
    ensures ExpireAll(s).clock == s.clock
    decreases Room(s.current)
  {
    if s.current != [] {
      hide Expire;
      ExpireMakesProgress(s);
      ExpireKeeps(s);
      ExpireAllKeeps(Expire(s));
    }
  }

  lemma TakenIsGood(s: Daemon, t: Timer)
    requires Good(s, t) && s.queue != []
    ensures Good(Taken(s), t)
  {
    hide InEpoch, Remove;
    var u := s.queue[0].timer;
    RemoveInEpoch(s.current, u, t, s.last / N);
    RemoveInEpoch(s.overflow, u, t, s.last / N + 1);
  }

  lemma StartedIsGood(s: Daemon, u: Timer, time: nat, promoted: bool, t: Timer)
    requires Good(s, t) && s.last == s.clock
    requires u == t ==> time <= s.clock < time + N && !Misjudged(time, s.clock, s.PeriodOf(t), promoted)
    ensures Good(Started(s, u, time, promoted), t)
  {
    hide InEpoch, Placed, Misjudged;
    InsertedIsGood(s, u, time, promoted, t);
    if u == t { PlacementIsExact(time, s.last, s.PeriodOf(u), promoted); }
    var due := time + s.PeriodOf(u);
    if Placed(time, s.last, s.PeriodOf(u), promoted) == ProcessNow {
      PostedIsGood(s.(log := s.log + [Callback(u, due, s.last)]), Start(u, due), t);
    }
  }

  lemma HandledIsGood(s: Daemon, promoted: bool, t: Timer)
    requires Good(s, t) && s.queue != [] && Timely(s, Handle, t) && !Misjudges(s, Handle, promoted, t)
    ensures Good(Handled(s, promoted), t)
  {
    hide InEpoch, Remove, Started, Sampled, Inserted, Misjudged;
    var c := s.queue[0];
    TakenIsGood(s, t);
    SampledIsGood(Taken(s), t);
    SampledKeeps(Taken(s));
    var s' := Sampled(Taken(s));
    match c
    case Start(u, time) => StartedIsGood(s', u, time, promoted, t);
    case ChangePeriod(u, period) =>
      NotMisjudged(s'.last, period, promoted);
      InsertedIsGood(s'.(period := s'.period[u := period]), u, s'.last, promoted, t);
    case Stop(_) =>
  }

  lemma NotMisjudged(now: nat, period: Period, promoted: bool)
    ensures !Misjudged(now, now, period, promoted)
  {
  }

  lemma SampledKeeps(s: Daemon)
    ensures Sampled(s).period == s.period && Sampled(s).auto == s.auto && Sampled(s).clock == s.clock
  {
    ExpireAllKeeps(s);
  }

  lemma ServedIsGood(s: Daemon, promoted: bool, t: Timer)
    requires Good(s, t) && s.clock < s.last + N
    ensures Good(Served(s, promoted), t)
  {
    hide InEpoch, Expired, TickCount, Switched;
    SampledIsGood(s, t);
    if !Switches(s) && s.current != [] && TickCount(s.current[0].expiry) <= TickCount(s.clock) {
      ExpiredIsGood(Sampled(s), promoted, t);
    }
  }

  // A timer that is misjudged has an entry that has expired on the list for the next wrap.
  lemma MisjudgedIsNotGood(s: Daemon, promoted: bool, t: Timer)
    requires Good(s, t) && s.queue != [] && Timely(s, Handle, t) && Misjudges(s, Handle, promoted, t)
    ensures !Good(Handled(s, promoted), t)
  {
    hide InEpoch, Remove, Sampled, Placed, Misjudged, TickCount;
    TakenIsGood(s, t);
    SampledKeeps(Taken(s));
    SampledIsGood(Taken(s), t);
    var s', time := Sampled(Taken(s)), s.queue[0].time;
    PromotedMisjudges(time, s.clock, s.PeriodOf(t), promoted);
    MisjudgedComesAWrapLate(time, s.clock, s.PeriodOf(t));
    var e := Entry(time + s.PeriodOf(t), t);
    EarlierEpoch(s.clock, e.expiry);
    InsertedIsThere(s'.overflow, e, s.clock / N + 1);
  }

  lemma PromotedMisjudges(command: nat, now: nat, period: Period, promoted: bool)
    requires Misjudged(command, now, period, promoted)
    ensures promoted
  {
  }

  lemma InsertedIsThere(list: seq<Entry>, e: Entry, epoch: nat)
    requires e.expiry / N != epoch
    ensures !InEpoch(Insert(list, e), e.timer, epoch)
  {
    assert Insert(list, e)[FirstGreater(Values(list), TickCount(e.expiry))] == e;
  }

  // A step keeps the lists in order exactly if it does not misjudge a start command of the timer.
  lemma StepIsGood(s: Daemon, step: Step, promoted: bool, t: Timer)
    requires Good(s, t) && Enabled(s, step) && Timely(s, step, t)
    ensures Good(Apply(s, step, promoted), t) <==> !Misjudges(s, step, promoted, t)
  {
    hide InEpoch, Served, Handled, Misjudged;
    match step
    case Serve => ServedIsGood(s, promoted, t);
    case Handle =>
      if Misjudges(s, step, promoted, t) { MisjudgedIsNotGood(s, promoted, t); } else { HandledIsGood(s, promoted, t); }
    case Post(command) => PostedIsGood(s, command, t);
    case Advance(_) =>
  }

  // ---------------------------------------------------------------- one timer

  function EntriesOf(list: seq<Entry>, t: Timer): seq<Entry> {
    if list == [] then [] else (if list[0].timer == t then [list[0]] else []) + EntriesOf(list[1..], t)
  }

  function CommandsOf(queue: seq<Command>, t: Timer): seq<Command> {
    if queue == [] then [] else (if queue[0].timer == t then [queue[0]] else []) + CommandsOf(queue[1..], t)
  }

  function CallbacksOf(log: seq<Callback>, t: Timer): seq<Callback> {
    if log == [] then []
    else
      CallbacksOf(log[..|log| - 1], t) + (if log[|log| - 1].timer == t then [log[|log| - 1]] else [])
  }

  // What there is of a timer: its list items, its commands on the way and its callbacks.
  datatype View = View(entries: seq<Entry>, commands: seq<Command>, callbacks: seq<Callback>)

  function ViewOf(s: Daemon, t: Timer): View {
    View(EntriesOf(s.current, t) + EntriesOf(s.overflow, t), CommandsOf(s.queue, t), CallbacksOf(s.log, t))
  }

  lemma {:induction false} EntriesAdd(a: seq<Entry>, b: seq<Entry>, t: Timer)
    ensures EntriesOf(a + b, t) == EntriesOf(a, t) + EntriesOf(b, t)
  {
    if a == [] {
      assert a + b == b;
    } else {
      assert (a + b)[1..] == a[1..] + b;
      EntriesAdd(a[1..], b, t);
      var own := if a[0].timer == t then [a[0]] else [];
      assert own + (EntriesOf(a[1..], t) + EntriesOf(b, t)) == (own + EntriesOf(a[1..], t)) + EntriesOf(b, t);
    }
  }

  lemma {:induction false} CommandsAdd(a: seq<Command>, b: seq<Command>, t: Timer)
    ensures CommandsOf(a + b, t) == CommandsOf(a, t) + CommandsOf(b, t)
  {
    if a == [] {
      assert a + b == b;
    } else {
      assert (a + b)[1..] == a[1..] + b;
      CommandsAdd(a[1..], b, t);
      var own := if a[0].timer == t then [a[0]] else [];
      assert own + (CommandsOf(a[1..], t) + CommandsOf(b, t)) == (own + CommandsOf(a[1..], t)) + CommandsOf(b, t);
    }
  }

  lemma EntriesInserted(list: seq<Entry>, e: Entry, t: Timer)
    ensures e.timer != t ==> EntriesOf(Insert(list, e), t) == EntriesOf(list, t)
    ensures e.timer == t && EntriesOf(list, t) == [] ==> EntriesOf(Insert(list, e), t) == [e]
  {
    hide TickCount, Values, EntriesOf;
    EntriesPasted(list, FirstGreater(Values(list), TickCount(e.expiry)), e, t);
  }

  lemma EntriesPasted(list: seq<Entry>, p: nat, e: Entry, t: Timer)
    requires p <= |list|
    ensures e.timer != t ==> EntriesOf(Paste(list, p, e), t) == EntriesOf(list, t)
    ensures e.timer == t && EntriesOf(list, t) == [] ==> EntriesOf(Paste(list, p, e), t) == [e]
  {
    EntriesAdd(list[..p] + [e], list[p..], t);
    EntriesAdd(list[..p], [e], t);
    EntriesAdd(list[..p], list[p..], t);
    OneEntry(e, t);
    hide EntriesOf;
    assert list[..p] + list[p..] == list;
  }

  lemma OneEntry(e: Entry, t: Timer)
    ensures EntriesOf([e], t) == if e.timer == t then [e] else []
  {
  }

  lemma {:induction false} EntriesRemoved(list: seq<Entry>, u: Timer, t: Timer)
    ensures u != t ==> EntriesOf(Remove(list, u), t) == EntriesOf(list, t)
    ensures EntriesOf(list, t) == [] ==> EntriesOf(Remove(list, u), t) == []
  {
    if list != [] {
      EntriesRemoved(list[1..], u, t);
      EntriesAdd([list[0]], Remove(list[1..], u), t);
      assert EntriesOf([list[0]], t) == if list[0].timer == t then [list[0]] else [];
    }
  }

  // An auto-reload timer started at `start`: `calls` callbacks have been made, and either its item
  // carries the next due time or a start command for it is on its way.
  function Due(start: nat, period: Period, calls: nat): nat {
    if calls == 0 then start else Due(start, period, calls - 1) + period
  }

  predicate Ticking(v: View, t: Timer, start: nat, period: Period, now: nat) {
    var k := |v.callbacks|;
    var due := Due(start, period, k + 1);
    && due <= now + period
    && (forall i :: 0 <= i < k ==> v.callbacks[i].due == Due(start, period, i + 1) <= v.callbacks[i].at <= now)
    && (|| (v.commands == [] && v.entries == [Entry(due, t)])
        || (v.commands == [Start(t, due - period)] && v.entries == []))
  }

  // The three things that may happen to it.
  lemma Fires(v: View, t: Timer, start: nat, period: Period, at: nat, now: nat, placed: bool)
    requires Ticking(v, t, start, period, now) && v.entries != [] && v.entries[0].expiry <= at <= now
    ensures
      var e := v.entries[0];
      var callbacks := v.callbacks + [Callback(t, e.expiry, at)];
      Ticking(if placed then View([Entry(e.expiry + period, t)], [], callbacks)
              else View([], [Start(t, e.expiry)], callbacks), t, start, period, now)
  {
  }

  lemma Starts(v: View, t: Timer, start: nat, period: Period, at: nat, now: nat, placed: bool)
    requires Ticking(v, t, start, period, now) && v.commands != [] && at <= now
    requires !placed ==> v.commands[0].time + period <= at
    ensures
      var due := v.commands[0].time + period;
      Ticking(if placed then View([Entry(due, t)], [], v.callbacks)
              else View([], [Start(t, due)], v.callbacks + [Callback(t, due, at)]), t, start, period, now)
  {
  }

  // The head of the current list is taken off and its callback made.
  function Popped(s: Daemon, at: nat): Daemon
    requires s.current != []
  {
    s.(current := s.current[1..], log := s.log + [Callback(s.current[0].timer, s.current[0].expiry, at)])
  }

  lemma PoppedView(s: Daemon, at: nat, t: Timer)
    requires s.current != []
    ensures
      var e := s.current[0];
      var v := ViewOf(s, t);
      ViewOf(Popped(s, at), t) == if e.timer != t then v
        else View(v.entries[1..], v.commands, v.callbacks + [Callback(t, e.expiry, at)])
    ensures s.current[0].timer == t ==> ViewOf(s, t).entries != [] && ViewOf(s, t).entries[0] == s.current[0]
  {
    var log := Popped(s, at).log;
    assert log[..|log| - 1] == s.log;
  }

  lemma PostedView(s: Daemon, c: Command, t: Timer)
    ensures
      var v := ViewOf(s, t);
      ViewOf(Posted(s, c), t) ==
        if c.timer == t && |s.queue| < s.capacity then v.(commands := v.commands + [c]) else v
  {
    CommandsAdd(s.queue, [c], t);
    assert CommandsOf([c], t) == if c.timer == t then [c] else [];
  }

  lemma ListedView(s: Daemon, e: Entry, t: Timer)
    requires e.timer == t ==> ViewOf(s, t).entries == []
    ensures
      var v := ViewOf(s, t);
      var w := if e.timer != t then v else v.(entries := [e]);
      ViewOf(s.(current := Insert(s.current, e)), t) == w && ViewOf(s.(overflow := Insert(s.overflow, e)), t) == w
  {
    EntriesInserted(s.current, e, t);
    EntriesInserted(s.overflow, e, t);
  }

  // A timer was started at `start`, when the callbacks `before` had been made. An auto-reload timer goes on
  // from there; another is called back once.
  datatype Plan = Plan(start: nat, period: Period, before: seq<Callback>)

  function Since(v: View, before: seq<Callback>): View
    requires before <= v.callbacks
  {
    v.(callbacks := v.callbacks[|before|..])
  }

  predicate Fired(v: View, plan: Plan, now: nat) {
    && v.entries == [] && v.commands == [] && |v.callbacks| == 1
    && v.callbacks[0].due == plan.start + plan.period <= v.callbacks[0].at <= now
  }

  predicate Live(v: View, t: Timer, plan: Plan, now: nat, auto: bool) {
    if !auto && v.callbacks != [] then Fired(v, plan, now) else Ticking(v, t, plan.start, plan.period, now)
  }

  ghost predicate Tracked(s: Daemon, t: Timer, plan: Plan) {
    && s.PeriodOf(t) == plan.period && plan.before <= ViewOf(s, t).callbacks
    && Live(Since(ViewOf(s, t), plan.before), t, plan, s.clock, t in s.auto)
  }

  lemma SinceAdds(v: View, before: seq<Callback>, c: Callback)
    requires before <= v.callbacks
    ensures before <= v.callbacks + [c]
    ensures (v.callbacks + [c])[|before|..] == v.callbacks[|before|..] + [c]
  {
  }

  // While it has an item or a command it is ticking.
  lemma LiveIsTicking(v: View, t: Timer, plan: Plan, now: nat, auto: bool)
    requires Live(v, t, plan, now, auto) && (v.entries != [] || v.commands != [])
    ensures Ticking(v, t, plan.start, plan.period, now) && (!auto ==> v.callbacks == [])
  {
  }

  // A timer that is called back for the last time.
  lemma FiresOnce(v: View, t: Timer, plan: Plan, at: nat, now: nat)
    requires Ticking(v, t, plan.start, plan.period, now) && v.callbacks == []
    requires v.entries == [] ==> v.commands != []
    ensures
      var due := if v.entries != [] then v.entries[0].expiry else v.commands[0].time + plan.period;
      due <= at <= now ==> Live(View([], [], [Callback(t, due, at)]), t, plan, now, false)
  {
    assert Due(plan.start, plan.period, 1) == Due(plan.start, plan.period, 0) + plan.period;
  }

  // Nothing is left of the timer but its callbacks.
  ghost predicate Gone(s: Daemon, t: Timer) {
    ViewOf(s, t).entries == [] && ViewOf(s, t).commands == []
  }

  lemma GoneIsNotTracked(s: Daemon, t: Timer, plan: Plan)
    requires Gone(s, t) && t in s.auto
    ensures !Tracked(s, t, plan)
  {
    hide ViewOf;
  }

  lemma ExpireTracks(s: Daemon, t: Timer, plan: Plan)
    requires Tracked(s, t, plan) && s.current != []
    requires s.current[0].timer == t ==> s.current[0].expiry <= s.clock
    ensures if ExpireDrops(s, t) then Gone(Expire(s), t) else Tracked(Expire(s), t, plan)
  {
    hide Ticking, Live, TickCount, Insert, ViewOf;
    var e := s.current[0];
    var v := ViewOf(s, t);
    var next := Entry(e.expiry + s.PeriodOf(e.timer), e.timer);
    var s' := Popped(s, s.clock);
    PoppedView(s, s.clock, t);
    if e.timer == t {
      OwnCallback(v, t, plan, s.clock, s.clock, TickCount(next.expiry) > TickCount(e.expiry), t in s.auto);
    }
    ListedView(s', next, t);
    PostedView(s', Start(e.timer, e.expiry), t);
    assert [] + [Start(e.timer, e.expiry)] == [Start(e.timer, e.expiry)];
  }

  // The timer's own entry expires and is called back: it is put back, or a command is sent for it, or, if
  // it is not to go on, neither.
  lemma OwnCallback(v: View, t: Timer, plan: Plan, at: nat, now: nat, placed: bool, auto: bool)
    requires plan.before <= v.callbacks && Live(Since(v, plan.before), t, plan, now, auto)
    requires v.entries != [] && v.entries[0].expiry <= at <= now
    ensures
      var e := v.entries[0];
      var after := View(if auto && placed then [Entry(e.expiry + plan.period, t)] else [],
                        if auto && !placed then [Start(t, e.expiry)] else [],
                         v.callbacks + [Callback(t, e.expiry, at)]);
      && v.entries == [e] && v.commands == [] && e.timer == t && plan.before <= after.callbacks
      && Live(Since(after, plan.before), t, plan, now, auto)
  {
    var w := Since(v, plan.before);
    LiveIsTicking(w, t, plan, now, auto);
    OneOrTheOther(w, t, plan.start, plan.period, now);
    SinceAdds(v, plan.before, Callback(t, v.entries[0].expiry, at));
    if auto { Fires(w, t, plan.start, plan.period, at, now, placed); } else { FiresOnce(w, t, plan, at, now); }
    hide Ticking;
  }

  lemma OneOrTheOther(v: View, t: Timer, start: nat, period: Period, now: nat)
    requires Ticking(v, t, start, period, now)
    ensures v.entries != [] ==> |v.entries| == 1 && v.commands == [] && v.entries[0].timer == t
    ensures v.commands != [] ==> |v.commands| == 1 && v.entries == []
  {
  }

  lemma {:induction false} ExpireAllTracks(s: Daemon, t: Timer, plan: Plan)
    requires Tracked(s, t, plan) && Good(s, t) && s.clock / N > s.last / N
    ensures if SwitchDrops(s, t) then Gone(ExpireAll(s), t) else Tracked(ExpireAll(s), t, plan)
    decreases Room(s.current)
  {
    hide Tracked, Expire, ExpireDrops, InEpoch, ViewOf;
    if s.current != [] {
      HeadInEpoch(s.current, t, s.last / N);
      EarlierEpoch(s.current[0].expiry, s.clock);
      ExpireTracks(s, t, plan);
      ExpireIsGood(s, t);
      ExpireMakesProgress(s);
      ExpireKeeps(s);
      if ExpireDrops(s, t) {
        ExpireAllLeaves(Expire(s), t);
      } else {
        ExpireAllTracks(Expire(s), t, plan);
      }
    }
  }

  lemma SwitchedView(s: Daemon, t: Timer, last: nat)
    requires s.current == []
    ensures ViewOf(s.(current := s.overflow, overflow := s.current, last := last), t) == ViewOf(s, t)
    ensures ViewOf(s.(last := last), t) == ViewOf(s, t)
  {
    assert EntriesOf([], t) == [];
  }

  lemma SampledTracks(s: Daemon, t: Timer, plan: Plan)
    requires Tracked(s, t, plan) && Good(s, t) && s.clock < s.last + N
    ensures
      if Switches(s) && SwitchDrops(s, t) then Gone(Sampled(s), t) else Tracked(Sampled(s), t, plan)
  {
    hide TickCount, InEpoch, ExpireAll, Live, SwitchDrops, ViewOf;
    SampledView(s, t);
    EpochOf(s.last, s.clock);
    if Switches(s) {
      ExpireAllTracks(s, t, plan);
      ExpireAllKeeps(s);
      assert ExpireAll(s).period == s.period;
    }
  }

  lemma SampledView(s: Daemon, t: Timer)
    ensures ViewOf(Sampled(s), t) == ViewOf(if Switches(s) then ExpireAll(s) else s, t)
  {
    hide TickCount, ExpireAll;
    SwitchedView(ExpireAll(s), t, s.clock);
    SwitchedView(s.(current := []), t, s.clock);
  }

  lemma InsertedTracks(s: Daemon, u: Timer, command: nat, place: Place, t: Timer)
    requires u != t
    ensures ViewOf(Inserted(s, u, command, place), t) == ViewOf(s, t)
    ensures Inserted(s, u, command, place).period == s.period && Inserted(s, u, command, place).auto == s.auto
  {
    hide ViewOf, Insert;
    ListedView(s, Entry(command + s.PeriodOf(u), u), t);
  }

  lemma LastIsPast(s: Daemon, t: Timer)
    requires Good(s, t)
    ensures s.last <= s.clock
  {
  }

  lemma ExpiredTracks(s: Daemon, promoted: bool, t: Timer, plan: Plan)
    requires Tracked(s, t, plan) && Good(s, t) && s.current != []
    requires TickCount(s.current[0].expiry) <= TickCount(s.last)
    ensures if ExpiredDrops(s, promoted, t) then Gone(Expired(s, promoted), t)
            else Tracked(Expired(s, promoted), t, plan)
  {
    hide Live, TickCount, InEpoch, ViewOf, Insert, Placed, Misjudged, Good;
    if s.current[0].timer == t { HeadIsTimely(s, promoted, t); }
    LastIsPast(s, t);
    var e := s.current[0];
    var v := ViewOf(s, t);
    var place := Placed(e.expiry, s.last, s.PeriodOf(e.timer), promoted);
    var s' := Popped(s, s.last);
    PoppedView(s, s.last, t);
    if e.timer == t {
      OwnCallback(v, t, plan, s.last, s.clock, place != ProcessNow, t in s.auto);
    } else {
      InsertedTracks(s', e.timer, e.expiry, place, t);
    }
    ListedView(s', Entry(e.expiry + s.PeriodOf(e.timer), e.timer), t);
    PostedView(s', Start(e.timer, e.expiry), t);
    assert [] + [Start(e.timer, e.expiry)] == [Start(e.timer, e.expiry)];
  }

  lemma ServedTracks(s: Daemon, promoted: bool, t: Timer, plan: Plan)
    requires Tracked(s, t, plan) && Good(s, t) && s.clock < s.last + N
    ensures if ServeDrops(s, promoted, t) then Gone(Served(s, promoted), t)
            else Tracked(Served(s, promoted), t, plan)
  {
    hide Tracked, Gone, InEpoch, Expired, ExpiredDrops, TickCount, Switched, SwitchDrops;
    SampledIsGood(s, t);
    SampledTracks(s, t, plan);
    if !Switches(s) && s.current != [] && TickCount(s.current[0].expiry) <= TickCount(s.clock) {
      ExpiredTracks(Sampled(s), promoted, t, plan);
    }
  }

  // A timer on no list is untouched by the switch.
  lemma ExpireLeaves(s: Daemon, t: Timer)
    requires s.current != [] && ViewOf(s, t).entries == []
    ensures ViewOf(Expire(s), t) == ViewOf(s, t)
  {
    hide ViewOf, TickCount, Insert;
    var e := s.current[0];
    PoppedView(s, s.clock, t);
    ListedView(Popped(s, s.clock), Entry(e.expiry + s.PeriodOf(e.timer), e.timer), t);
    PostedView(Popped(s, s.clock), Start(e.timer, e.expiry), t);
  }

  lemma {:induction false} ExpireAllLeaves(s: Daemon, t: Timer)
    requires ViewOf(s, t).entries == []
    ensures ViewOf(ExpireAll(s), t) == ViewOf(s, t)
    decreases Room(s.current)
  {
    hide ViewOf, Expire;
    if s.current != [] {
      ExpireLeaves(s, t);
      ExpireMakesProgress(s);
      ExpireAllLeaves(Expire(s), t);
    }
  }

  lemma SampledLeaves(s: Daemon, t: Timer)
    requires ViewOf(s, t).entries == []
    ensures ViewOf(Sampled(s), t) == ViewOf(s, t)
  {
    hide TickCount, ExpireAll;
    ExpireAllLeaves(s, t);
    SwitchedView(ExpireAll(s), t, s.clock);
    SwitchedView(s.(current := []), t, s.clock);
  }

  lemma TakenView(s: Daemon, t: Timer)
    requires s.queue != []
    ensures s.queue[0].timer != t ==> ViewOf(Taken(s), t) == ViewOf(s, t)
    ensures s.queue[0].timer == t ==> ViewOf(s, t).commands != []
    ensures s.queue[0].timer == t && ViewOf(s, t).entries == [] ==>
      && ViewOf(s, t).commands == [s.queue[0]] + ViewOf(Taken(s), t).commands
      && ViewOf(Taken(s), t).entries == [] && ViewOf(Taken(s), t).callbacks == ViewOf(s, t).callbacks
  {
    EntriesRemoved(s.current, s.queue[0].timer, t);
    EntriesRemoved(s.overflow, s.queue[0].timer, t);
  }

  lemma LoggedView(s: Daemon, c: Callback, t: Timer)
    ensures
      var v := ViewOf(s, t);
      ViewOf(s.(log := s.log + [c]), t) == if c.timer == t then v.(callbacks := v.callbacks + [c]) else v
  {
    assert (s.log + [c])[..|s.log + [c]| - 1] == s.log;
  }

  lemma StartedView(s: Daemon, u: Timer, time: nat, promoted: bool, t: Timer)
    requires u != t
    ensures ViewOf(Started(s, u, time, promoted), t) == ViewOf(s, t)
    ensures Started(s, u, time, promoted).period == s.period && Started(s, u, time, promoted).auto == s.auto
    ensures Started(s, u, time, promoted).clock == s.clock
  {
    hide Placed, Insert, ViewOf;
    var place := Placed(time, s.last, s.PeriodOf(u), promoted);
    InsertedTracks(s, u, time, place, t);
    var s' := Inserted(s, u, time, place);
    var due := time + s.PeriodOf(u);
    var logged := s'.(log := s'.log + [Callback(u, due, s.last)]);
    LoggedView(s', Callback(u, due, s.last), t);
    PostedView(logged, Start(u, due), t);
  }

  // The tracked timer's own start command.
  lemma OwnStartTracks(s: Daemon, t: Timer, plan: Plan, time: nat, v: View, promoted: bool)
    requires s.PeriodOf(t) == plan.period && plan.before <= v.callbacks
    requires Live(Since(v, plan.before), t, plan, s.clock, t in s.auto) && v.commands == [Start(t, time)]
    requires ViewOf(s, t) == View([], [], v.callbacks)
    requires time <= s.last < time + N && s.last <= s.clock && !Misjudged(time, s.last, s.PeriodOf(t), promoted)
    ensures if StartDrops(s, time, promoted, t) then Gone(Started(s, t, time, promoted), t)
            else Tracked(Started(s, t, time, promoted), t, plan)
  {
    hide Placed, Insert, Live, Misjudged, TickCount, ViewOf;
    var place := Placed(time, s.last, plan.period, promoted);
    PlacementIsExact(time, s.last, plan.period, promoted);
    OwnStart(v, t, plan, s.last, s.clock, place != ProcessNow, t in s.auto);
    var due := time + plan.period;
    ListedView(s, Entry(due, t), t);
    var logged := s.(log := s.log + [Callback(t, due, s.last)]);
    LoggedView(s, Callback(t, due, s.last), t);
    PostedView(logged, Start(t, due), t);
    assert [] + [Start(t, due)] == [Start(t, due)];
  }

  // Its start command is taken: it is listed, or it has expired, is called back and, if it is to go on,
  // another start command is sent.
  lemma OwnStart(v: View, t: Timer, plan: Plan, at: nat, now: nat, placed: bool, auto: bool)
    requires plan.before <= v.callbacks && Live(Since(v, plan.before), t, plan, now, auto)
    requires v.commands != [] && v.commands[0].Start? && at <= now
    requires !placed ==> v.commands[0].time + plan.period <= at
    ensures
      var due := v.commands[0].time + plan.period;
      var called := v.callbacks + [Callback(t, due, at)];
      && plan.before <= called
      && Live(Since(View([Entry(due, t)], [], v.callbacks), plan.before), t, plan, now, auto)
      && (!placed ==>
            Live(Since(View([], if auto then [Start(t, due)] else [], called), plan.before), t, plan, now, auto))
  {
    var w := Since(v, plan.before);
    LiveIsTicking(w, t, plan, now, auto);
    OneOrTheOther(w, t, plan.start, plan.period, now);
    SinceAdds(v, plan.before, Callback(t, v.commands[0].time + plan.period, at));
    Starts(w, t, plan.start, plan.period, at, now, true);
    if !placed {
      if auto { Starts(w, t, plan.start, plan.period, at, now, false); } else { FiresOnce(w, t, plan, at, now); }
    }
    hide Ticking;
  }

  lemma HandledTracks(s: Daemon, promoted: bool, t: Timer, plan: Plan)
    requires Tracked(s, t, plan) && Good(s, t) && s.queue != []
    requires Timely(s, Handle, t) && !Misjudges(s, Handle, promoted, t)
    ensures if HandleDrops(s, promoted, t) then Gone(Handled(s, promoted), t)
            else Tracked(Handled(s, promoted), t, plan)
  {
    hide ViewOf, Remove, Started, StartDrops, Sampled, SwitchDrops, InEpoch, Misjudged, Live, TickCount;
    var c := s.queue[0];
    TakenIsGood(s, t);
    TakenView(s, t);
    SampledKeeps(Taken(s));
    SampledIsGood(Taken(s), t);
    var s' := Sampled(Taken(s));
    if c.timer == t {
      OwnCommand(ViewOf(s, t), t, plan, s.clock, t in s.auto);
      SampledLeaves(Taken(s), t);
      NotOnSwitch(Taken(s), t);
      OwnStartTracks(s', t, plan, c.time, ViewOf(s, t), promoted);
    } else {
      SampledTracks(Taken(s), t, plan);
      OtherCommandView(s, promoted, t);
    }
  }

  // A command for another timer.
  lemma OtherCommandView(s: Daemon, promoted: bool, t: Timer)
    requires s.queue != [] && s.queue[0].timer != t
    ensures
      var s', h := Sampled(Taken(s)), Handled(s, promoted);
      ViewOf(h, t) == ViewOf(s', t) && h.auto == s'.auto && h.PeriodOf(t) == s'.PeriodOf(t) && h.clock == s'.clock
  {
    hide ViewOf, Remove, Started, Sampled, TickCount, Placement;
    var s' := Sampled(Taken(s));
    match s.queue[0]
    case Start(u, time) => StartedView(s', u, time, promoted, t);
    case ChangePeriod(u, changedTo) =>
      var changed := s'.(period := s'.period[u := changedTo]);
      PeriodIgnored(s', changed, t);
      InsertedTracks(changed, u, s'.last, Placed(s'.last, s'.last, changedTo, promoted), t);
    case Stop(_) =>
  }

  // A timer on no list does not expire in the switch.
  lemma {:induction false} NotOnSwitch(s: Daemon, t: Timer)
    requires ViewOf(s, t).entries == []
    ensures !SwitchDrops(s, t)
    decreases Room(s.current)
  {
    hide ViewOf, TickCount, Insert;
    if s.current != [] {
      PoppedView(s, s.clock, t);
      ExpireLeaves(s, t);
      ExpireMakesProgress(s);
      NotOnSwitch(Expire(s), t);
    }
  }

  lemma OwnCommand(v: View, t: Timer, plan: Plan, now: nat, auto: bool)
    requires plan.before <= v.callbacks && Live(Since(v, plan.before), t, plan, now, auto) && v.commands != []
    ensures v.entries == [] && |v.commands| == 1 && v.commands[0].Start? && v.commands[0].timer == t
    ensures v.commands[0].time <= now
  {
  }

  lemma PeriodIgnored(s: Daemon, s': Daemon, t: Timer)
    requires s' == s.(period := s'.period)
    ensures ViewOf(s', t) == ViewOf(s, t)
  {
  }

  // ---------------------------------------------------------------- all its callbacks

  // A run of timely steps in which nobody else sends a command to the timer and none of its own is
  // misjudged.
  predicate Run(s: Daemon, steps: seq<Step>, promoted: bool, t: Timer)
    decreases |steps|
  {
    steps == [] ||
    (&& Enabled(s, steps[0]) && Timely(s, steps[0], t) && !Misjudges(s, steps[0], promoted, t)
     && (steps[0].Post? ==> steps[0].command.timer != t)
     && Run(Apply(s, steps[0], promoted), steps[1..], promoted, t))
  }

  function RunAll(s: Daemon, steps: seq<Step>, promoted: bool, t: Timer): Daemon
    requires Run(s, steps, promoted, t)
    decreases |steps|
  {
    if steps == [] then s else RunAll(Apply(s, steps[0], promoted), steps[1..], promoted, t)
  }

  lemma LiveLater(v: View, t: Timer, plan: Plan, now: nat, later: nat, auto: bool)
    requires Live(v, t, plan, now, auto) && now <= later
    ensures Live(v, t, plan, later, auto)
  {
  }

  // A step keeps an auto-reload timer exactly if it does not drop the command to start it again; if it
  // does, the timer is on no list and has no command on its way.
  lemma StepTracks(s: Daemon, step: Step, promoted: bool, t: Timer, plan: Plan)
    requires Tracked(s, t, plan) && Good(s, t)
    requires Enabled(s, step) && Timely(s, step, t) && !Misjudges(s, step, promoted, t)
    requires step.Post? ==> step.command.timer != t
    ensures Tracked(Apply(s, step, promoted), t, plan) <==> !Drops(s, step, promoted, t)
    ensures Drops(s, step, promoted, t) ==> Gone(Apply(s, step, promoted), t) && t in s.auto
    ensures t in s.auto && Gone(Apply(s, step, promoted), t) ==> Drops(s, step, promoted, t)
  {
    hide Live, InEpoch, Served, Handled, ServeDrops, HandleDrops, ViewOf;
    match step {
      case Serve => ServedTracks(s, promoted, t, plan);
      case Handle => HandledTracks(s, promoted, t, plan);
      case Post(command) => PostedView(s, command, t);
      case Advance(ticks) =>
        LaterView(s, ticks, t);
        LiveLater(Since(ViewOf(s, t), plan.before), t, plan, s.clock, s.clock + ticks, t in s.auto);
    }
    AutoStays(s, step, promoted);
    if Drops(s, step, promoted, t) {
      DropsAreAuto(s, step, promoted, t);
      GoneIsNotTracked(Apply(s, step, promoted), t, plan);
    } else if t in s.auto {
      TrackedIsNotGone(Apply(s, step, promoted), t, plan);
    }
  }

  // Only an auto-reload timer has a command to start it again.
  lemma {:induction false} SwitchDropsAreAuto(s: Daemon, t: Timer)
    requires SwitchDrops(s, t)
    ensures t in s.auto
    decreases Room(s.current)
  {
    ExpireMakesProgress(s);
    ExpireKeeps(s);
    hide Expire;
    if !ExpireDrops(s, t) { SwitchDropsAreAuto(Expire(s), t); }
  }

  lemma DropsAreAuto(s: Daemon, step: Step, promoted: bool, t: Timer)
    requires Enabled(s, step) && Drops(s, step, promoted, t)
    ensures t in s.auto
  {
    hide SwitchDrops, Sampled, TickCount, Placement, Remove;
    SampledKeeps(s);
    if step.Handle? {
      SampledKeeps(Taken(s));
      if SwitchDrops(Taken(s), t) { SwitchDropsAreAuto(Taken(s), t); }
    } else if SwitchDrops(s, t) {
      SwitchDropsAreAuto(s, t);
    }
  }

  lemma AutoStays(s: Daemon, step: Step, promoted: bool)
    requires Enabled(s, step)
    ensures Apply(s, step, promoted).auto == s.auto
  {
    hide Sampled, TickCount, Placement, Insert, Remove;
    SampledKeeps(s);
    if step.Handle? { SampledKeeps(Taken(s)); }
  }

  lemma LaterView(s: Daemon, ticks: nat, t: Timer)
    ensures ViewOf(s.(clock := s.clock + ticks), t) == ViewOf(s, t)
  {
  }

  lemma TrackedIsNotGone(s: Daemon, t: Timer, plan: Plan)
    requires Tracked(s, t, plan) && t in s.auto
    ensures !Gone(s, t)
  {
    hide ViewOf;
  }

  // Once it is gone it stays so, and is not called back again.
  lemma GoneStays(s: Daemon, step: Step, promoted: bool, t: Timer)
    requires Gone(s, t) && Enabled(s, step) && (step.Post? ==> step.command.timer != t)
    ensures ViewOf(Apply(s, step, promoted), t) == ViewOf(s, t)
  {
    hide ViewOf, Served, Handled;
    match step
    case Serve => ServedLeaves(s, promoted, t);
    case Handle =>
      TakenView(s, t);
      SampledLeaves(Taken(s), t);
      OtherCommandView(s, promoted, t);
    case Post(command) => PostedView(s, command, t);
    case Advance(ticks) => LaterView(s, ticks, t);
  }

  lemma ServedLeaves(s: Daemon, promoted: bool, t: Timer)
    requires ViewOf(s, t).entries == []
    ensures ViewOf(Served(s, promoted), t) == ViewOf(s, t)
  {
    hide ViewOf, Sampled, TickCount, Insert, Inserted, Placement;
    SampledLeaves(s, t);
    var s' := Sampled(s);
    if s'.current != [] {
      var e := s'.current[0];
      var p := Popped(s', s'.last);
      PoppedView(s', s'.last, t);
      InsertedTracks(p, e.timer, e.expiry, Placed(e.expiry, s'.last, s'.PeriodOf(e.timer), promoted), t);
      PostedView(p, Start(e.timer, e.expiry), t);
    }
    UnswitchedCurrent(s);
  }

  lemma UnswitchedCurrent(s: Daemon)
    ensures !Switches(s) ==> Sampled(s).current == s.current
  {
  }

  predicate NeverDrops(s: Daemon, steps: seq<Step>, promoted: bool, t: Timer)
    requires Run(s, steps, promoted, t)
    decreases |steps|
  {
    steps == [] ||
    (!Drops(s, steps[0], promoted, t) && NeverDrops(Apply(s, steps[0], promoted), steps[1..], promoted, t))
  }

  lemma {:induction false} RunTracks(s: Daemon, steps: seq<Step>, promoted: bool, t: Timer, plan: Plan)
    requires Tracked(s, t, plan) && Good(s, t) && Run(s, steps, promoted, t)
    ensures
      var end := RunAll(s, steps, promoted, t);
      Good(end, t) && if NeverDrops(s, steps, promoted, t) then Tracked(end, t, plan) else Gone(end, t)
    decreases |steps|
  {
    hide Tracked, Good, Gone, Apply, Enabled, Timely, Misjudges, Drops;
    if steps != [] {
      var next := Apply(s, steps[0], promoted);
      StepTracks(s, steps[0], promoted, t, plan);
      StepIsGood(s, steps[0], promoted, t);
      if Drops(s, steps[0], promoted, t) {
        GoneThroughout(next, steps[1..], promoted, t);
      } else {
        RunTracks(next, steps[1..], promoted, t, plan);
      }
    }
  }

  lemma {:induction false} GoneThroughout(s: Daemon, steps: seq<Step>, promoted: bool, t: Timer)
    requires Gone(s, t) && Good(s, t) && Run(s, steps, promoted, t)
    ensures
      var end := RunAll(s, steps, promoted, t);
      Good(end, t) && Gone(end, t) && ViewOf(end, t) == ViewOf(s, t)
    decreases |steps|
  {
    hide Good, Apply, Enabled, Timely, Misjudges, ViewOf;
    if steps != [] {
      GoneStays(s, steps[0], promoted, t);
      StepIsGood(s, steps[0], promoted, t);
      GoneThroughout(Apply(s, steps[0], promoted), steps[1..], promoted, t);
    }
  }

  // The daemon has nothing to do at the time it looked last.
  predicate Quiescent(s: Daemon) {
    && s.queue == [] && s.last == s.clock
    && (s.current != [] ==> TickCount(s.current[0].expiry) > TickCount(s.clock))
  }

  lemma {:induction false} DueIsLinear(start: nat, period: Period, k: nat)
    ensures Due(start, period, k) == start + k * period
  {
    if k > 0 { DueIsLinear(start, period, k - 1); }
  }

  lemma {:induction false} EntryIsThere(list: seq<Entry>, t: Timer)
    requires EntriesOf(list, t) != []
    ensures EntriesOf(list, t)[0].timer == t
    ensures exists i :: 0 <= i < |list| && list[i] == EntriesOf(list, t)[0]
  {
    if list[0].timer != t {
      EntryIsThere(list[1..], t);
      var i :| 0 <= i < |list[1..]| && list[1..][i] == EntriesOf(list[1..], t)[0];
      assert list[i + 1] == EntriesOf(list, t)[0];
    }
  }

  // All that is listed when the daemon is quiescent expires later.
  lemma ListedIsAhead(s: Daemon, t: Timer)
    requires Good(s, t) && Quiescent(s) && ViewOf(s, t).entries != []
    ensures ViewOf(s, t).entries[0].expiry > s.clock
  {
    hide TickCount;
    if EntriesOf(s.current, t) != [] {
      EntryIsThere(s.current, t);
      var i :| 0 <= i < |s.current| && s.current[i] == EntriesOf(s.current, t)[0];
      HeadInEpoch(s.current, t, s.last / N);
      EarlierEpoch(s.clock, s.current[i].expiry);
      EarlierEpoch(s.current[i].expiry, s.clock);
    } else {
      EntryIsThere(s.overflow, t);
      var i :| 0 <= i < |s.overflow| && s.overflow[i] == EntriesOf(s.overflow, t)[0];
      EarlierEpoch(s.clock, s.overflow[i].expiry);
    }
  }

  // The timer is listed one period after `start`, or a start command from then is on its way.
  predicate Armed(s: Daemon, t: Timer, start: nat) {
    var v := ViewOf(s, t);
    && start <= s.clock
    && (|| (v.entries == [] && v.commands == [Start(t, start)])
        || (v.entries == [Entry(start + s.PeriodOf(t), t)] && v.commands == []))
  }

  lemma ArmedIsTracked(s: Daemon, t: Timer, start: nat)
    requires Armed(s, t, start)
    ensures Tracked(s, t, Plan(start, s.PeriodOf(t), ViewOf(s, t).callbacks))
  {
    hide ViewOf;
    assert Due(start, s.PeriodOf(t), 0) == start;
  }

  // From when an auto-reload timer is armed it is called back for start + period, start + 2 * period
  // and so on, each once, in order and not before it is due, however late the daemon is; and whenever
  // the daemon has nothing left to do, as many callbacks have been made as whole periods have passed.
  lemma AutoReloadIsExact(s: Daemon, steps: seq<Step>, promoted: bool, t: Timer, start: nat)
    requires Good(s, t) && t in s.auto && Armed(s, t, start)
    requires Run(s, steps, promoted, t) && NeverDrops(s, steps, promoted, t)
    ensures
      var end, before, period := RunAll(s, steps, promoted, t), ViewOf(s, t).callbacks, s.PeriodOf(t);
      && before <= ViewOf(end, t).callbacks
      && var calls := ViewOf(end, t).callbacks[|before|..];
         && (forall i :: 0 <= i < |calls| ==> calls[i].due == start + (i + 1) * period <= calls[i].at <= end.clock)
         && start + |calls| * period <= end.clock
         && (Quiescent(end) ==> end.clock < start + (|calls| + 1) * period)
  {
    hide Good, ViewOf, Quiescent, RunAll, Run;
    var period := s.PeriodOf(t);
    ArmedIsTracked(s, t, start);
    RunTracks(s, steps, promoted, t, Plan(start, period, ViewOf(s, t).callbacks));
    RunKeepsAuto(s, steps, promoted, t);
    var end := RunAll(s, steps, promoted, t);
    var calls := ViewOf(end, t).callbacks[|ViewOf(s, t).callbacks|..];
    DueIsLinear(start, period, |calls|);
    DueIsLinear(start, period, |calls| + 1);
    forall i | 0 <= i < |calls| ensures calls[i].due == start + (i + 1) * period <= calls[i].at <= end.clock {
      DueIsLinear(start, period, i + 1);
    }
    if Quiescent(end) {
      NoCommands(end, t);
      ListedIsAhead(end, t);
    }
  }

  // A timer that does not reload is called back once, for start + period, and not before; once the daemon
  // has nothing left to do it has been exactly if that time has come, and then nothing is left of it.
  lemma OneShotIsExact(s: Daemon, steps: seq<Step>, promoted: bool, t: Timer, start: nat)
    requires Good(s, t) && t !in s.auto && Armed(s, t, start) && Run(s, steps, promoted, t)
    ensures
      var end, before, due := RunAll(s, steps, promoted, t), ViewOf(s, t).callbacks, start + s.PeriodOf(t);
      && before <= ViewOf(end, t).callbacks
      && var calls := ViewOf(end, t).callbacks[|before|..];
         && |calls| <= 1 && (calls != [] ==> Gone(end, t) && calls[0].due == due <= calls[0].at <= end.clock)
         && (Quiescent(end) ==> (calls != [] <==> due <= end.clock))
  {
    hide Good, ViewOf, Quiescent, RunAll, Run, NeverDrops;
    var period := s.PeriodOf(t);
    ArmedIsTracked(s, t, start);
    OneShotNeverDrops(s, steps, promoted, t);
    RunTracks(s, steps, promoted, t, Plan(start, period, ViewOf(s, t).callbacks));
    RunKeepsAuto(s, steps, promoted, t);
    var end := RunAll(s, steps, promoted, t);
    assert Due(start, period, 1) == Due(start, period, 0) + period;
    if Quiescent(end) {
      NoCommands(end, t);
      if ViewOf(end, t).entries != [] { ListedIsAhead(end, t); }
    }
  }

  lemma {:induction false} OneShotNeverDrops(s: Daemon, steps: seq<Step>, promoted: bool, t: Timer)
    requires t !in s.auto && Run(s, steps, promoted, t)
    ensures NeverDrops(s, steps, promoted, t)
    decreases |steps|
  {
    hide Apply, Enabled, Timely, Misjudges, Drops;
    if steps != [] {
      if Drops(s, steps[0], promoted, t) { DropsAreAuto(s, steps[0], promoted, t); }
      AutoStays(s, steps[0], promoted);
      OneShotNeverDrops(Apply(s, steps[0], promoted), steps[1..], promoted, t);
    }
  }

  lemma {:induction false} RunKeepsAuto(s: Daemon, steps: seq<Step>, promoted: bool, t: Timer)
    requires Run(s, steps, promoted, t)
    ensures RunAll(s, steps, promoted, t).auto == s.auto
    decreases |steps|
  {
    hide Apply, Enabled, Timely, Misjudges;
    if steps != [] {
      AutoStays(s, steps[0], promoted);
      RunKeepsAuto(Apply(s, steps[0], promoted), steps[1..], promoted, t);
    }
  }

  // In any such run an auto-reload timer is still listed, or has its start command on its way, at the end
  // exactly if no step dropped one.
  lemma ActiveExactlyIf(s: Daemon, steps: seq<Step>, promoted: bool, t: Timer, start: nat)
    requires Good(s, t) && t in s.auto && Armed(s, t, start) && Run(s, steps, promoted, t)
    ensures Gone(RunAll(s, steps, promoted, t), t) <==> !NeverDrops(s, steps, promoted, t)
  {
    hide Good, ViewOf, RunAll, Run, NeverDrops, Tracked, Gone;
    var plan := Plan(start, s.PeriodOf(t), ViewOf(s, t).callbacks);
    ArmedIsTracked(s, t, start);
    RunTracks(s, steps, promoted, t, plan);
    RunKeepsAuto(s, steps, promoted, t);
    if NeverDrops(s, steps, promoted, t) {
      TrackedIsNotGone(RunAll(s, steps, promoted, t), t, plan);
    }
  }

  // ---------------------------------------------------------------- what a command does to its own timer

  // The command at the head of the queue is the only one for t, which is listed at most once.
  predicate OnlyCommand(s: Daemon, t: Timer, c: Command) {
    && s.queue != [] && s.queue[0] == c && c.timer == t
    && ViewOf(s, t).commands == [c] && |ViewOf(s, t).entries| <= 1
  }

  lemma {:induction false} OwnRemoved(list: seq<Entry>, t: Timer)
    ensures EntriesOf(list, t) != [] ==> EntriesOf(Remove(list, t), t) == EntriesOf(list, t)[1..]
    ensures EntriesOf(list, t) == [] ==> Remove(list, t) == list
  {
    if list != [] && list[0].timer != t {
      OwnRemoved(list[1..], t);
      assert [list[0]] + list[1..] == list;
      EntriesAdd([list[0]], Remove(list[1..], t), t);
      assert EntriesOf([list[0]], t) == [];
    }
  }

  // Taking it takes the timer off whichever list it is on.
  lemma OwnTaken(s: Daemon, t: Timer, c: Command)
    requires OnlyCommand(s, t, c)
    ensures ViewOf(Taken(s), t) == View([], [], ViewOf(s, t).callbacks)
    ensures Remove(Taken(s).current, t) == Taken(s).current && Remove(Taken(s).overflow, t) == Taken(s).overflow
  {
    OwnRemoved(s.current, t);
    OwnRemoved(s.overflow, t);
    OwnRemoved(Taken(s).current, t);
    OwnRemoved(Taken(s).overflow, t);
  }

  // A stop, or a deletion, stops: the timer is on no list and no command is on its way for it, and
  // GoneStays says that it is not called back from then on. Other timers go on as the time taken says.
  lemma StopMeans(s: Daemon, promoted: bool, t: Timer)
    requires OnlyCommand(s, t, Stop(t))
    ensures
      var r := Handled(s, promoted);
      && Gone(r, t) && ViewOf(r, t).callbacks == ViewOf(s, t).callbacks
      && forall u :: u != t ==> ViewOf(r, u) == ViewOf(Sampled(Taken(s)), u)
  {
    hide ViewOf, Sampled, Remove;
    OwnTaken(s, t, Stop(t));
    SampledLeaves(Taken(s), t);
  }

  // A change of period starts the timer with the new period from now.
  lemma ChangePeriodMeans(s: Daemon, promoted: bool, t: Timer, p: Period)
    requires OnlyCommand(s, t, ChangePeriod(t, p)) && s.clock < s.last + N && Good(s, t)
    ensures
      var r := Handled(s, promoted);
      && r.clock == s.clock && r.PeriodOf(t) == p
      && ViewOf(r, t) == View([Entry(s.clock + p, t)], [], ViewOf(s, t).callbacks)
      && Armed(r, t, s.clock) && r.auto == s.auto
  {
    hide ViewOf, Sampled, Remove, TickCount, Insert, Placed, Good;
    OwnTaken(s, t, ChangePeriod(t, p));
    SampledLeaves(Taken(s), t);
    SampledKeeps(Taken(s));
    TakenIsGood(s, t);
    SampledIsGood(Taken(s), t);
    var s' := Sampled(Taken(s));
    var changed := s'.(period := s'.period[t := p]);
    PeriodIgnored(s', changed, t);
    AheadIsPlaced(s.clock, p, promoted);
    ListedView(changed, Entry(s.clock + p, t), t);
  }

  // A time that is ahead is never processed now.
  lemma AheadIsPlaced(now: nat, p: Period, promoted: bool)
    ensures Placed(now, now, p, promoted) != ProcessNow
  {
    hide TickCount;
    NotMisjudged(now, p, promoted);
    PlacementIsExact(now, now, p, promoted);
  }

  // A start command for a timer that is listed does what it would do were it not, so that it is armed
  // afresh: what AutoReloadIsExact and OneShotIsExact say holds from the new start.
  lemma StartMeans(s: Daemon, promoted: bool, t: Timer, time: nat)
    requires OnlyCommand(s, t, Start(t, time)) && time <= s.clock
    ensures
      var off := s.(current := Remove(s.current, t), overflow := Remove(s.overflow, t));
      Handled(s, promoted) == Handled(off, promoted) && Armed(off, t, time)
  {
    hide Sampled, Started;
    OwnTaken(s, t, Start(t, time));
  }

  lemma NoCommands(s: Daemon, t: Timer)
    requires Quiescent(s)
    ensures ViewOf(s, t).commands == []
  {
  }

  // A daemon with nothing to do, at any time.
  function Idle(clock: nat, capacity: nat, period: map<Timer, Period>, auto: set<Timer>): Daemon {
    Daemon([], [], [], capacity, clock, clock, period, auto, [])
  }

  // From there the first start command gives a state that AutoReloadIsExact speaks of.
  lemma FirstCommand(clock: nat, capacity: nat, period: map<Timer, Period>, auto: set<Timer>, t: Timer)
    requires t in auto && capacity > 0
    ensures
      var s := Apply(Idle(clock, capacity, period, auto), Post(Start(t, clock)), false);
      Good(s, t) && t in s.auto && Armed(s, t, clock) && ViewOf(s, t).callbacks == []
  {
    PostedView(Idle(clock, capacity, period, auto), Start(t, clock), t);
    NothingInEpoch(t, clock / N);
    NothingInEpoch(t, clock / N + 1);
  }

  // ---------------------------------------------------------------- what a run may lose

  // Timer 0 with a period of 100 ticks is started at 65530, and the daemon takes the command at 65640.
  function Late(promoted: bool): Daemon {
    var s := Apply(Idle(65530, 10, map[0 := 100], {0}), Post(Start(0, 65530)), promoted);
    Apply(Apply(s, Advance(110), promoted), Handle, promoted)
  }

  // The timer was due at 65630. With differences in int it is not called back but listed for the next
  // wrap, with a time before the present one; with 16-bit differences it is called back.
  lemma MisjudgedLosesCallback()
    ensures Late(true).clock == 65640 && Late(true).log == [] && Late(true).queue == []
    ensures Late(true).current == [] && Late(true).overflow == [Entry(65630, 0)]
    ensures Late(false).log == [Callback(0, 65630, 65640)]
  {
    LateSample();
    var s := Idle(65640, 10, map[0 := 100], {0});
    assert Misjudged(65530, 65640, 100, true);
    assert FirstGreater(Values([]), TickCount(65630)) == 0;
    assert Late(true) == Started(s, 0, 65530, true);
    assert Late(false) == Started(s, 0, 65530, false);
  }

  lemma LateSample()
    ensures Sampled(Daemon([], [], [], 10, 65530, 65640, map[0 := 100], {0}, [])) == Idle(65640, 10, map[0 := 100], {0})
  {
  }

  // An expired timer whose next expiry has passed too is to be started again by a command. If another
  // command fills the queue, that one is dropped, and the timer is gone for good.
  function Crowded(): Daemon { Daemon([Entry(100, 0)], [], [Stop(1)], 1, 250, 250, map[0 := 100], {0}, []) }

  lemma FullQueueLosesTimer()
    ensures Good(Crowded(), 0) && Timely(Crowded(), Serve, 0) && Drops(Crowded(), Serve, true, 0)
    ensures ViewOf(Served(Crowded(), true), 0) == View([], [], [Callback(0, 100, 250)])
  {
    hide Good, ViewOf, Drops, Served;
    CrowdedIsGood();
    CrowdedDrops();
    CrowdedServed();
    LostView();
  }

  lemma CrowdedIsGood()
    ensures Good(Crowded(), 0)
  {
  }

  lemma CrowdedDrops()
    ensures Drops(Crowded(), Serve, true, 0)
  {
    assert Sampled(Crowded()) == Crowded();
    assert Placed(100, 250, 100, true) == ProcessNow;
  }

  function Lost(): Daemon { Daemon([], [], [Stop(1)], 1, 250, 250, map[0 := 100], {0}, [Callback(0, 100, 250)]) }

  lemma CrowdedServed()
    ensures Served(Crowded(), true) == Lost()
  {
    assert Sampled(Crowded()) == Crowded();
    assert Placed(100, 250, 100, true) == ProcessNow;
  }

  lemma LostView()
    ensures ViewOf(Lost(), 0) == View([], [], [Callback(0, 100, 250)])
  {
    CrowdedView([Callback(0, 100, 250)], [Stop(1)]);
    assert EntriesOf([], 0) + EntriesOf([], 0) == [];
  }

  lemma CrowdedView(log: seq<Callback>, queue: seq<Command>)
    requires log == [Callback(0, 100, 250)] && queue == [Stop(1)]
    ensures CallbacksOf(log, 0) == log && CommandsOf(queue, 0) == []
  {
    assert log[..0] == [] && CallbacksOf([], 0) == [];
    assert queue[1..] == [];
  }

  // ---------------------------------------------------------------- the code itself

  datatype Item = Item(value: nat, timer: Timer)

  function Shown(e: Entry): Item { Item(TickCount(e.expiry), e.timer) }

  function ShownAll(list: seq<Entry>): (items: seq<Item>)
    ensures |items| == |list|
  {
    seq(|list|, i requires 0 <= i < |list| => Shown(list[i]))
  }

  function Message(c: Command): Command {
    match c
    case Start(t, time) => Start(t, TickCount(time))
    case _ => c
  }

  function Messages(queue: seq<Command>): (messages: seq<Command>)
    ensures |messages| == |queue|
  {
    seq(|queue|, i requires 0 <= i < |queue| => Message(queue[i]))
  }

  function ItemValues(items: seq<Item>): (values: seq<nat>)
    ensures |values| == |items|
  {
    seq(|items|, i requires 0 <= i < |items| => items[i].value)
  }

  // vListInsert and uxListRemove on the items; the linked list itself is in module Lists.
  function InsertItem(items: seq<Item>, item: Item): seq<Item> {
    Paste(items, FirstGreater(ItemValues(items), item.value), item)
  }

  function RemoveItem(items: seq<Item>, t: Timer): seq<Item> {
    if items == [] then [] else if items[0].timer == t then items[1..] else [items[0]] + RemoveItem(items[1..], t)
  }

  lemma InsertShown(list: seq<Entry>, e: Entry)
    ensures ShownAll(Insert(list, e)) == InsertItem(ShownAll(list), Shown(e))
  {
    hide TickCount;
    assert ItemValues(ShownAll(list)) == Values(list);
  }

  lemma {:induction false} RemoveShown(list: seq<Entry>, t: Timer)
    ensures ShownAll(Remove(list, t)) == RemoveItem(ShownAll(list), t)
  {
    hide TickCount;
    if list != [] {
      RemoveShown(list[1..], t);
      assert ShownAll(list)[1..] == ShownAll(list[1..]);
      assert ShownAll([list[0]] + Remove(list[1..], t)) == [Shown(list[0])] + ShownAll(Remove(list[1..], t));
    }
  }

  lemma TailShown(s: Daemon)
    ensures s.current != [] ==> ShownAll(s.current[1..]) == ShownAll(s.current)[1..]
    ensures s.queue != [] ==> Messages(s.queue[1..]) == Messages(s.queue)[1..]
  {
  }

  lemma PostShown(queue: seq<Command>, c: Command)
    ensures Messages(queue + [c]) == Messages(queue) + [Message(c)]
  {
  }

  // The daemon's variables. s is history: the same state with unbounded times.
  class TimerTask {
    var current: seq<Item>
    var overflow: seq<Item>
    var queue: seq<Command>
    const capacity: nat
    var lastTime: nat
    var period: map<Timer, Period>
    var auto: set<Timer>
    ghost var s: Daemon

    ghost predicate Valid()
      reads this
    {
      && current == ShownAll(s.current) && overflow == ShownAll(s.overflow) && queue == Messages(s.queue)
      && lastTime == TickCount(s.last) && period == s.period && auto == s.auto && capacity == s.capacity
    }

    function PeriodOf(t: Timer): Period
      reads this
    {
      if t in period then period[t] else 1
    }

    constructor (clock: nat, capacity: nat, period: map<Timer, Period>, auto: set<Timer>)
      ensures Valid() && s == Idle(clock, capacity, period, auto)
    {
      current, overflow, queue, lastTime := [], [], [], TickCount(clock);
      this.capacity, this.period, this.auto := capacity, period, auto;
      s := Idle(clock, capacity, period, auto);
    }

    // xTimerGenericCommand, with no time to wait for room
    method GenericCommand(message: Command, ghost c: Command) returns (sent: bool)
      requires Valid() && message == Message(c)
      modifies this
      ensures Valid() && s == Posted(old(s), c)
      ensures sent <==> old(|queue|) < capacity
    {
      PostShown(s.queue, c);
      sent := |queue| < capacity;
      if sent {
        queue := queue + [message];
      }
      s := Posted(s, c);
    }

    method InsertTimerInActiveList(t: Timer, nextExpiryTime: nat, timeNow: nat, commandTime: nat, promoted: bool,
                                   ghost command: nat)
      returns (processNow: bool)
      requires Valid() && nextExpiryTime == TickCount(command + PeriodOf(t))
      requires timeNow == TickCount(s.last) && commandTime == TickCount(command)
      modifies this
      ensures Valid()
      ensures var place := Placed(command, old(s).last, old(s).PeriodOf(t), promoted);
        s == Inserted(old(s), t, command, place) && (processNow <==> place == ProcessNow)
    {
      hide TickCount, Insert, InsertItem, ShownAll, Messages;
      TickCountBelow(command);
      TickCountBelow(s.last);
      ghost var place := Placed(command, s.last, s.PeriodOf(t), promoted);
      ghost var e := Entry(command + PeriodOf(t), t);
      InsertShown(s.current, e);
      InsertShown(s.overflow, e);
      processNow := false;
      if nextExpiryTime <= timeNow {
        if Difference(timeNow, commandTime, promoted) >= PeriodOf(t) {
          processNow := true;
        } else {
          overflow := InsertItem(overflow, Item(nextExpiryTime, t));
        }
      } else {
        if timeNow < commandTime && nextExpiryTime >= commandTime {
          processNow := true;
        } else {
          current := InsertItem(current, Item(nextExpiryTime, t));
        }
      }
      s := Inserted(s, t, command, place);
    }

    method ExpireHead()
      requires Valid() && current != []
      modifies this
      ensures Valid() && s == Expire(old(s))
    {
      hide TickCount, Insert, InsertItem;
      ghost var e := s.current[0];
      ghost var next := Entry(e.expiry + s.PeriodOf(e.timer), e.timer);
      ghost var was := s;
      var nextExpireTime, t := current[0].value, current[0].timer;
      TailShown(s);
      current := current[1..];
      s := Popped(s, s.clock);
      if t in auto {
        TickCountAdds(e.expiry, PeriodOf(t));
        var reloadTime := (nextExpireTime + PeriodOf(t)) % N;
        if reloadTime > nextExpireTime {
          InsertShown(s.current, next);
          current := InsertItem(current, Item(reloadTime, t));
          s := s.(current := Insert(s.current, next));
        } else {
          var _ := GenericCommand(Start(t, nextExpireTime), Start(t, e.expiry));
        }
      }
    }

    // prvSwitchTimerLists
    method SwitchTimerLists()
      requires Valid()
      modifies this
      ensures Valid() && s == Switched(old(s))
    {
      hide Expire, ShownAll;
      while current != []
        invariant Valid() && ExpireAll(s) == ExpireAll(old(s))
        decreases Room(s.current)
      {
        ExpireMakesProgress(s);
        ExpireHead();
      }
      current, overflow := overflow, current;
      s := s.(current := s.overflow, overflow := s.current);
    }

    // prvSampleTimeNow
    method SampleTimeNow(tickCount: nat) returns (timeNow: nat, switched: bool)
      requires Valid() && tickCount == TickCount(s.clock)
      modifies this
      ensures Valid() && s == Sampled(old(s))
      ensures timeNow == tickCount && (switched <==> Switches(old(s)))
    {
      hide TickCount, ShownAll, ExpireAll, Messages;
      timeNow := tickCount;
      ExpireAllKeeps(s);
      if timeNow < lastTime {
        SwitchTimerLists();
        switched := true;
      } else {
        switched := false;
      }
      lastTime := timeNow;
      s := s.(last := s.clock);
    }

    method ProcessExpiredTimer(nextExpireTime: nat, timeNow: nat, promoted: bool)
      requires Valid() && current != [] && nextExpireTime == current[0].value && timeNow == lastTime
      modifies this
      ensures Valid() && s == Expired(old(s), promoted)
    {
      hide TickCount, Insert, Inserted, Placement;
      ghost var e := s.current[0];
      var t := current[0].timer;
      TailShown(s);
      current := current[1..];
      s := Popped(s, s.last);
      if t in auto {
        TickCountAdds(e.expiry, PeriodOf(t));
        var processNow := InsertTimerInActiveList(t, (nextExpireTime + PeriodOf(t)) % N, timeNow, nextExpireTime,
                                                  promoted, e.expiry);
        if processNow {
          InsertedNothing(Popped(old(s), old(s).last), t, e.expiry);
          var _ := GenericCommand(Start(t, nextExpireTime), Start(t, e.expiry));
        }
      }
    }

    // prvGetNextExpireTime and prvProcessTimerOrBlockTask, up to where the task blocks
    method ProcessTimerOrBlock(tickCount: nat, promoted: bool)
      requires Valid() && tickCount == TickCount(s.clock)
      modifies this
      ensures Valid() && s == Served(old(s), promoted)
    {
      hide TickCount, Switched, Expired;
      var listWasEmpty := current == [];
      var nextExpireTime := if listWasEmpty then 0 else current[0].value;
      var timeNow, switched := SampleTimeNow(tickCount);
      if !switched {
        if !listWasEmpty && nextExpireTime <= timeNow {
          ProcessExpiredTimer(nextExpireTime, timeNow, promoted);
        }
      }
    }

    // One turn of the loop of prvProcessReceivedCommands
    method ProcessReceivedCommand(tickCount: nat, promoted: bool)
      requires Valid() && queue != [] && tickCount == TickCount(s.clock)
      modifies this
      ensures Valid() && s == Handled(old(s), promoted)
    {
      hide TickCount, Insert, Inserted, Placement, Remove, RemoveItem, Sampled, ShownAll, Messages;
      ghost var c := s.queue[0];
      var message := queue[0];
      var t := message.timer;
      HeadMessage(s.queue);
      TailShown(s);
      RemoveShown(s.current, t);
      RemoveShown(s.overflow, t);
      queue, current, overflow := queue[1..], RemoveItem(current, t), RemoveItem(overflow, t);
      s := Taken(s);
      SampledKeeps(s);
      SampledLast(s);
      var timeNow, _ := SampleTimeNow(tickCount);
      match message
      case Start(_, time) => Restart(t, time, timeNow, promoted, c.time);
      case ChangePeriod(_, changedTo) =>
        period := period[t := changedTo];
        s := s.(period := s.period[t := changedTo]);
        TickCountAdds(s.last, changedTo);
        var _ := InsertTimerInActiveList(t, (timeNow + changedTo) % N, timeNow, timeNow, promoted, s.last);
      case Stop(_) =>
    }

    method Restart(t: Timer, time: nat, timeNow: nat, promoted: bool, ghost start: nat)
      requires Valid() && time == TickCount(start) && timeNow == lastTime
      modifies this
      ensures Valid() && s == Started(old(s), t, start, promoted)
    {
      hide TickCount, Insert, Inserted, Placement, ShownAll;
      TickCountAdds(start, PeriodOf(t));
      var due := (time + PeriodOf(t)) % N;
      var processNow := InsertTimerInActiveList(t, due, timeNow, time, promoted, start);
      InsertedNothing(old(s), t, start);
      if processNow {
        s := s.(log := s.log + [Callback(t, start + PeriodOf(t), s.last)]);
        if t in auto {
          var _ := GenericCommand(Start(t, due), Start(t, start + PeriodOf(t)));
        }
      }
    }
  }

  lemma InsertedNothing(s: Daemon, t: Timer, command: nat)
    ensures Inserted(s, t, command, ProcessNow) == s
  {
  }

  lemma HeadMessage(queue: seq<Command>)
    requires queue != []
    ensures Messages(queue)[0] == Message(queue[0])
  {
  }

  lemma SampledLast(s: Daemon)
    ensures Sampled(s).last == s.clock
  {
  }
}
