/** The frame timer: three times, of which update shifts the current one
    into the last one and takes the difference. */
module Timers {
  import Helpers

  /** The three fields of a timer. */
  datatype TimerState = TimerState(currentTime: real, lastTime: real, deltaTime: real)

  /** The state Timer() starts in. */
  const Fresh: TimerState := TimerState(0.0, 0.0, 0.0)

  /** update(time): the old current time becomes the last time, and the
      delta is the new time minus it. */
  function Tick(s: TimerState, time: real): TimerState
  {
    TimerState(time, s.currentTime, time - s.currentTime)
  }

  /** The state after updating a fresh timer with each time in turn. */
  function Run(times: seq<real>): TimerState
    decreases |times|
  {
    if |times| == 0 then Fresh else Tick(Run(times[..|times| - 1]), times[|times| - 1])
  }

  /** The deltaTime reported after each update. */
  function Deltas(times: seq<real>): (ds: seq<real>)
    ensures |ds| == |times|
  {
    seq(|times|, i requires 0 <= i < |times| => Run(times[..i + 1]).deltaTime)
  }

  /** Two updates in a row: the delta is the difference of the two times,
      whatever the state before. */
  lemma TwoUpdates(s: TimerState, t1: real, t2: real)
    ensures Tick(Tick(s, t1), t2).deltaTime == t2 - t1
    ensures Tick(Tick(s, t1), t2).lastTime == t1
  {
  }

  /** After a run the current time is the last time given, or 0 for none. */
  lemma RunCurrent(times: seq<real>)
    ensures Run(times).currentTime == if |times| == 0 then 0.0 else times[|times| - 1]
  {
  }

  /** The deltas after a run of updates from a fresh timer add up to the last
      time given: the sum telescopes. */
  lemma {:induction false} DeltasSum(times: seq<real>)
    ensures Helpers.Sum(Deltas(times)) == if |times| == 0 then 0.0 else times[|times| - 1]
    decreases |times|
  {
    if |times| > 0 {
      var n := |times|;
      var init := times[..n - 1];
      DeltasSum(init);
      var ds := Deltas(times);
      assert ds[..n - 1] == Deltas(init) by {
        forall i | 0 <= i < n - 1
          ensures ds[..n - 1][i] == Deltas(init)[i]
        {
          assert times[..i + 1] == init[..i + 1];
        }
      }
      assert times[..n] == times;
      RunCurrent(init);
      assert Helpers.Sum(ds) == Helpers.Sum(ds[..n - 1]) + ds[n - 1];
    }
  }

  class Timer {
    var currentTime: real
    var lastTime: real
    var deltaTime: real

    function State(): TimerState
      reads this
    {
      TimerState(currentTime, lastTime, deltaTime)
    }

    /** Timer(): all three times are zero. */
    constructor ()
      ensures State() == Fresh
    {
      currentTime := 0.0;
      lastTime := 0.0;
      deltaTime := 0.0;
    }

    /** update(time) */
    method Update(time: real)
      modifies this
      ensures lastTime == old(currentTime) && currentTime == time
      ensures deltaTime == time - old(currentTime)
      ensures State() == Tick(old(State()), time)
    {
      lastTime := currentTime;
      currentTime := time;
      deltaTime := currentTime - lastTime;
    }
  }
}
