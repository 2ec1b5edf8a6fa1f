/**
  The countdown of src/hooks/useTimer.ts.

  `intervalRef.current` being set is `running`; one firing of the interval
  is one `Tick`, which happens only while the interval is registered.
  `TickStep` is that firing as a function of the clock, and `Elapse` is k
  seconds of wall time; the class `Timer` holds the hook's state.
*/
module Countdown {

  /** `timeLeft` and whether the interval is registered. */
  datatype Clock = Clock(timeLeft: int, running: bool)

  datatype TickResult = TickResult(clock: Clock, expired: bool)

  /** The interval body: at 1 or less, clear the interval, call `onExpire`
      and set 0; otherwise count down by one. */
  function TickStep(c: Clock): (r: TickResult)
    requires c.running
    ensures r.clock.timeLeft >= 0
    ensures r.expired <==> !r.clock.running
    ensures r.expired <==> c.timeLeft <= 1
    ensures r.expired ==> r.clock == Clock(0, false)
    ensures !r.expired ==> r.clock == Clock(c.timeLeft - 1, true)
  {
    if c.timeLeft <= 1 then TickResult(Clock(0, false), true)
    else TickResult(Clock(c.timeLeft - 1, true), false)
  }

  datatype Elapsed = Elapsed(clock: Clock, expiries: nat)

  /** k seconds pass: the interval fires once per second while registered. */
  function Elapse(c: Clock, k: nat): Elapsed
  {
    if k == 0 then Elapsed(c, 0)
    else
      var prev := Elapse(c, k - 1);
      if prev.clock.running then
        var t := TickStep(prev.clock);
        Elapsed(t.clock, prev.expiries + (if t.expired then 1 else 0))
      else prev
  }

  /** Started from d > 0 seconds, after k < d seconds the clock shows d - k
      and is still running; from the d-th second on it shows 0, is stopped,
      and `onExpire` has been called exactly once. */
  lemma {:induction false} Countdown(d: int, k: nat)
    requires d > 0
    ensures Elapse(Clock(d, true), k) ==
      if k < d then Elapsed(Clock(d - k, true), 0) else Elapsed(Clock(0, false), 1)
  {
    if k > 0 {
      Countdown(d, k - 1);
    }
  }

  /** A clock that starts at zero or above never goes negative as it ticks,
      and `onExpire` is called at most once. */
  lemma {:induction false} NeverNegative(c: Clock, k: nat)
    requires c.timeLeft >= 0
    ensures Elapse(c, k).clock.timeLeft >= 0
    ensures Elapse(c, k).expiries <= 1
    ensures Elapse(c, k).expiries == 1 ==> !Elapse(c, k).clock.running
  {
    if k > 0 {
      NeverNegative(c, k - 1);
    }
  }

  /** The hook: its `duration` prop, `timeLeft`, and the interval. */
  class Timer {
    var duration: int
    var timeLeft: int
    var running: bool

    function Now(): Clock
      reads this
    {
      Clock(timeLeft, running)
    }

    /** `useState(duration)`: the countdown shows the full duration, stopped. */
    constructor (duration: int)
      ensures this.duration == duration && timeLeft == duration && !running
    {
      this.duration := duration;
      timeLeft := duration;
      running := false;
    }

    /** `start()`: register the interval unless one is already registered,
        so there is never more than one countdown. */
    method Start()
      modifies this
      ensures running
      ensures timeLeft == old(timeLeft) && duration == old(duration)
    {
      if running {
        return;
      }
      running := true;
    }

    /** One firing of the interval. */
    method Tick() returns (expired: bool)
      requires running
      modifies this
      ensures Now() == TickStep(old(Now())).clock
      ensures expired == TickStep(old(Now())).expired
      ensures duration == old(duration)
    {
      if timeLeft <= 1 {
        running := false;
        expired := true;
        timeLeft := 0;
      } else {
        expired := false;
        timeLeft := timeLeft - 1;
      }
    }

    /** `stop()`: clear the interval if there is one; the time left stays. */
    method Stop()
      modifies this
      ensures !running
      ensures timeLeft == old(timeLeft) && duration == old(duration)
    {
      if running {
        running := false;
      }
    }

    /** `reset()`: stop, then show the full duration again. */
    method Reset()
      modifies this
      ensures !running && timeLeft == duration
      ensures duration == old(duration)
    {
      Stop();
      timeLeft := duration;
    }

    /** The effect on a new `duration` prop: the countdown shows the new
        duration; whether it runs is left as it was. */
    method SyncDuration(d: int)
      modifies this
      ensures duration == d && timeLeft == d
      ensures running == old(running)
    {
      duration := d;
      timeLeft := d;
    }
  }
}
