// tasks.c: the two places where the kernel compares wrapped tick counts to measure time,
// xTaskCheckForTimeOut and vTaskDelayUntil. `clock` and `entry` are unbounded tick counts.
//
// TickType_t is 16 bits in this port and int is 32, so inside an expression two tick counts are
// promoted to int and their difference may be negative; it is reduced modulo N only when it is
// stored. With 32-bit ticks (configUSE_16_BIT_TICKS 0) it is reduced at once. `promoted` tells
// the two apart.
module Timeouts {
  const N: nat := 0x10000              // ticks before xTickCount wraps
  const OVERFLOW_RANGE: nat := 0x100   // xNumOfOverflows is a signed char; only its equality is used

  // What xTickCount and xNumOfOverflows show at an unbounded tick count.
  function TickCount(clock: nat): nat { clock % N }

  function Overflows(clock: nat): nat { (clock / N) % OVERFLOW_RANGE }

  // TickType_t subtraction.
  function Minus(a: nat, b: nat): nat
    requires a < N && b < N
  {
    if a >= b then a - b else a + N - b
  }

  // The same subtraction as an operand of a comparison.
  function Difference(a: nat, b: nat, promoted: bool): int
    requires a < N && b < N
  {
    if promoted then a - b else Minus(a, b)
  }

  // TimeOut_t
  class TimeOut {
    var overflowCount: nat
    var timeOnEntering: nat

    predicate Entered(entry: nat)
      reads this
    {
      overflowCount == Overflows(entry) && timeOnEntering == TickCount(entry)
    }

    // vTaskSetTimeOutState
    method Set(tickCount: nat, numOfOverflows: nat)
      modifies this
      ensures overflowCount == numOfOverflows && timeOnEntering == tickCount
    {
      overflowCount := numOfOverflows;
      timeOnEntering := tickCount;
    }

    // xTaskCheckForTimeOut. Without a timeout the entry time is moved up to now and the time to
    // wait shortened by as much.
    method Check(ticksToWait: nat, tickCount: nat, numOfOverflows: nat, promoted: bool,
                 ghost entry: nat, ghost clock: nat)
      returns (timedOut: bool, left: nat)
      requires Entered(entry) && tickCount == TickCount(clock) && numOfOverflows == Overflows(clock) && ticksToWait < N
      modifies this
      ensures timedOut <==> Reports(entry, ticksToWait, clock, promoted)
      ensures timedOut ==> Entered(entry) && left == ticksToWait
      ensures !timedOut ==> Entered(clock) && left == Left(entry, ticksToWait, clock)
    {
      left := ticksToWait;
      if numOfOverflows != overflowCount && tickCount >= timeOnEntering {
        timedOut := true;
      } else if Difference(tickCount, timeOnEntering, promoted) < ticksToWait {
        left := (ticksToWait - Difference(tickCount, timeOnEntering, promoted)) % N;
        Set(tickCount, numOfOverflows);
        timedOut := false;
      } else {
        timedOut := true;
      }
    }
  }

  // The answer of xTaskCheckForTimeOut.
  predicate Reports(entry: nat, wait: nat, clock: nat, promoted: bool) {
    || (Overflows(clock) != Overflows(entry) && TickCount(clock) >= TickCount(entry))
    || Difference(TickCount(clock), TickCount(entry), promoted) >= wait
  }

  // What it leaves of the time to wait.
  function Left(entry: nat, wait: nat, clock: nat): nat
    requires wait < N
  {
    Minus(wait, Minus(TickCount(clock), TickCount(entry)))
  }

  lemma Split(t: nat)
    ensures t == (t / N) * N + TickCount(t)
  {
  }

  // Two unbounded counts less than a wrap apart are told apart by their wrapped difference.
  lemma MinusIsElapsed(a: nat, b: nat)
    requires b <= a
    ensures Minus(TickCount(a), TickCount(b)) == (a - b) % N
  {
    Split(a);
    Split(b);
    var d := Minus(TickCount(a), TickCount(b));
    assert exists k :: a - b == k * N + d by {
      if TickCount(a) >= TickCount(b) { assert a - b == (a / N - b / N) * N + d; }
      else { assert a - b == (a / N - b / N - 1) * N + d; }
    }
    var k :| a - b == k * N + d;
    Remainder(a - b, k, d);
  }

  lemma Remainder(x: nat, k: int, d: nat)
    requires x == k * N + d && d < N
    ensures x % N == d
  {
  }

  // The answer is right unless a whole wrap went by unseen (at least N ticks have elapsed, the
  // remainder is below the wait, and the overflow count gives no hint), or the difference is taken
  // in int, the tick count is below the entry time and the wait is over.
  lemma TimeOutIsExact(entry: nat, wait: nat, clock: nat, promoted: bool)
    requires entry <= clock && 0 < wait < N
    ensures (Reports(entry, wait, clock, promoted) <==> clock - entry >= wait) <==>
      if promoted && TickCount(clock) < TickCount(entry) then clock - entry < wait
      else !(clock - entry >= N && (clock - entry) % N < wait
             && (TickCount(clock) < TickCount(entry) || Overflows(clock) == Overflows(entry)))
  {
    MinusIsElapsed(clock, entry);
    if clock - entry < N { SmallElapsed(entry, clock); }
  }

  lemma SmallElapsed(entry: nat, clock: nat)
    requires entry <= clock < entry + N
    ensures Overflows(clock) != Overflows(entry) ==> TickCount(clock) < TickCount(entry)
    ensures (clock - entry) % N == clock - entry
  {
    Split(clock);
    Split(entry);
    assert clock / N == entry / N || clock / N == entry / N + 1;
  }

  // With at most one overflow since the entry, the answer is right exactly when the difference is
  // not a negative int or the wait is not over.
  lemma TimeOutWithinOneWrap(entry: nat, wait: nat, clock: nat, promoted: bool)
    requires entry <= clock && clock / N <= entry / N + 1 && 0 < wait < N
    ensures (Reports(entry, wait, clock, promoted) <==> clock - entry >= wait) <==>
      !promoted || TickCount(clock) >= TickCount(entry) || clock - entry < wait
  {
    MinusIsElapsed(clock, entry);
    Split(clock);
    Split(entry);
    if clock - entry < N {
      SmallElapsed(entry, clock);
    } else {
      assert clock / N == entry / N + 1 && TickCount(clock) >= TickCount(entry);
    }
  }

  // While the wait is not over the deadline stays where it is; a timeout that is missed is put off
  // by a whole wrap of the tick count.
  lemma DeadlineStays(entry: nat, wait: nat, clock: nat)
    requires entry <= clock < entry + N && 0 < wait < N
    ensures clock + Left(entry, wait, clock) == entry + wait + if clock - entry <= wait then 0 else N
  {
    MinusIsElapsed(clock, entry);
    SmallElapsed(entry, clock);
  }

  // A call that waits 100 ticks from tick 65530 looks again 110 ticks later: the wait is over, the
  // promoted difference is negative, and what is left to wait is nearly a whole wrap.
  lemma TimeOutMissed()
    ensures !Reports(65530, 100, 65640, true) && Left(65530, 100, 65640) == N - 10
    ensures Reports(65530, 100, 65640, false)
  {
  }

  // Without a timeout there is time left, unless the deadline is this very tick and the promoted
  // difference is negative. The tick count is then below what it was on entering, so that it is not the
  // last one before the wrap.
  lemma NothingLeft(entry: nat, wait: nat, clock: nat, promoted: bool)
    requires entry <= clock < entry + N && 0 < wait < N && !Reports(entry, wait, clock, promoted)
    ensures Left(entry, wait, clock) == 0 <==> clock == entry + wait
    ensures Left(entry, wait, clock) == 0 ==> promoted && TickCount(clock) < TickCount(entry) < N
  {
    MinusIsElapsed(clock, entry);
    SmallElapsed(entry, clock);
    TickCountBelow(entry);
  }

  lemma TickCountBelow(t: nat)
    ensures TickCount(t) < N
  {
  }

  // A blocking call that checks again and again, at the unbounded times `clocks`: the number of
  // the check that reports the timeout.
  function FirstReport(entry: nat, wait: nat, clocks: seq<nat>, promoted: bool): (i: nat)
    requires wait < N
    ensures i <= |clocks|
    decreases |clocks|
  {
    if clocks == [] || Reports(entry, wait, clocks[0], promoted) then 0
    else 1 + FirstReport(clocks[0], Left(entry, wait, clocks[0]), clocks[1..], promoted)
  }

  // Each check comes at most one overflow after the one before and, if differences are promoted,
  // does not find the deadline passed and the tick count below that of the last check.
  ghost predicate Timely(entry: nat, clocks: seq<nat>, deadline: nat, promoted: bool)
    decreases |clocks|
  {
    clocks == [] ||
    (&& entry <= clocks[0] && clocks[0] / N <= entry / N + 1
     && (promoted && TickCount(clocks[0]) < TickCount(entry) ==> clocks[0] < deadline)
     && Timely(clocks[0], clocks[1..], deadline, promoted))
  }

  // However often it checks, the timeout is reported by the first check at or past the deadline
  // and by no earlier one.
  lemma {:induction false} RepeatedChecksKeepDeadline(entry: nat, wait: nat, clocks: seq<nat>, promoted: bool)
    requires 0 < wait < N && Timely(entry, clocks, entry + wait, promoted)
    ensures var i := FirstReport(entry, wait, clocks, promoted);
      && (forall k :: 0 <= k < i ==> clocks[k] < entry + wait)
      && (i < |clocks| ==> clocks[i] >= entry + wait)
    decreases |clocks|
  {
    if clocks != [] {
      TimeOutWithinOneWrap(entry, wait, clocks[0], promoted);
      if !Reports(entry, wait, clocks[0], promoted) {
        DeadlineStays(entry, wait, clocks[0]);
        var left := Left(entry, wait, clocks[0]);
        RepeatedChecksKeepDeadline(clocks[0], left, clocks[1..], promoted);
        var i := FirstReport(clocks[0], left, clocks[1..], promoted);
        forall k | 0 <= k < 1 + i ensures clocks[k] < entry + wait {
          if k > 0 { assert clocks[k] == clocks[1..][k - 1]; }
        }
      }
    }
  }

  // ---------------------------------------------------------------- vTaskDelayUntil

  // Its decision, and the wake time it leaves for the next call.
  method DelayUntil(previousWakeTime: nat, increment: nat, tickCount: nat) returns (shouldDelay: bool, timeToWake: nat)
    requires previousWakeTime < N && 0 < increment < N && tickCount < N
    ensures timeToWake == (previousWakeTime + increment) % N
    ensures shouldDelay <==> Delays(previousWakeTime, increment, tickCount)
  {
    shouldDelay := false;
    timeToWake := (previousWakeTime + increment) % N;
    if tickCount < previousWakeTime {
      if timeToWake < previousWakeTime && timeToWake > tickCount {
        shouldDelay := true;
      }
    } else {
      if timeToWake < previousWakeTime || timeToWake > tickCount {
        shouldDelay := true;
      }
    }
  }

  // As many ticks as lie between the previous wake time and now are fewer than the increment.
  predicate Delays(previousWakeTime: nat, increment: nat, tickCount: nat)
    requires previousWakeTime < N && tickCount < N
  {
    Minus(tickCount, previousWakeTime) < increment
  }

  // The task is delayed exactly when its wake time is still ahead, unless it comes a whole wrap
  // late and looks early: then it is delayed although its time has passed.
  lemma DelayUntilIsExact(wake: nat, increment: nat, clock: nat)
    requires wake <= clock && 0 < increment < N
    ensures (Delays(TickCount(wake), increment, TickCount(clock)) <==> clock < wake + increment) <==>
      (clock < wake + N || increment <= (clock - wake) % N)
  {
    MinusIsElapsed(clock, wake);
  }

  // The wake times of successive calls.
  function WakeTimes(previousWakeTime: nat, increment: nat, calls: nat): nat {
    if calls == 0 then previousWakeTime else (WakeTimes(previousWakeTime, increment, calls - 1) + increment) % N
  }

  // Adding before or after the wrap is the same.
  lemma TickCountAdds(t: nat, d: nat)
    ensures (TickCount(t) + d) % N == TickCount(t + d)
  {
    var sum := TickCount(t) + d;
    Split(t);
    Split(sum);
    Remainder(t + d, t / N + sum / N, sum % N);
  }

  // They do not drift: after any number of calls the stored time is the start plus that many
  // increments.
  lemma {:induction false} DelayUntilDoesNotDrift(wake: nat, increment: nat, calls: nat)
    ensures WakeTimes(TickCount(wake), increment, calls) == TickCount(wake + calls * increment)
  {
    hide TickCount;
    if calls > 0 {
      DelayUntilDoesNotDrift(wake, increment, calls - 1);
      TickCountAdds(wake + (calls - 1) * increment, increment);
      assert wake + calls * increment == wake + (calls - 1) * increment + increment;
    } else {
      assert wake + calls * increment == wake;
    }
  }
}
