/**
 * The countdown hook: the progress fraction, the per-frame accumulator that
 * turns animation-frame timestamps into one-second ticks, and the completion
 * detector that fires the session-complete callback and schedules the
 * automatic session switch one second later.
 *
 * Frame timestamps are real milliseconds; the accumulator holds real seconds.
 */
module TimerHook {
  import opened TimerStore

  /** Share of the session already spent, handed to the renderer. */
  function Progress(timeRemaining: int, totalTime: int): (p: real)
    ensures totalTime <= 0 ==> p == 0.0
    ensures 0 <= timeRemaining <= totalTime ==> 0.0 <= p <= 1.0
    ensures 0 < totalTime ==> (p == 0.0 <==> timeRemaining == totalTime)
    ensures 0 < totalTime ==> (p == 1.0 <==> timeRemaining == 0)
  {
    if totalTime > 0 then
      var f := (timeRemaining as real) / (totalTime as real);
      assert 0 <= timeRemaining <= totalTime ==> f <= 1.0 by {
        if 0 <= timeRemaining <= totalTime {
          FractionAtMostOne(timeRemaining as real, totalTime as real);
        }
      }
      1.0 - f
    else 0.0
  }

  /** A part no larger than a positive whole is at most the whole. */
  lemma FractionAtMostOne(part: real, whole: real)
    requires 0.0 < whole && part <= whole
    ensures part / whole <= 1.0
  {
    var q := part / whole;
    assert q * whole == part;
  }

  /** A tick never moves progress backwards. */
  lemma ProgressNeverDecreasesOnTick(s: TimerState)
    requires Valid(s)
    ensures Progress(Tick(s).timeRemaining, s.totalTime) >= Progress(s.timeRemaining, s.totalTime)
  {
    var t := s.totalTime as real;
    var a := s.timeRemaining as real;
    var b := Tick(s).timeRemaining as real;
    assert b <= a;
    assert b / t <= a / t by {
      assert (a - b) / t >= 0.0;
      assert a / t - b / t == (a - b) / t;
    }
  }

  // ---------------------------------------------------------------------
  // The accumulator, as a function of the sequence of frame durations.

  /** The accumulator after one frame, and whether that frame ticked. */
  datatype FrameStep = FrameStep(accumulated: real, ticked: bool)

  /**
   * One frame: add its duration; if a whole second has built up, tick once
   * and take one second off. Never more than one tick, whatever the frame's length.
   */
  function Accumulate(accumulated: real, delta: real): (r: FrameStep)
    ensures r.ticked <==> accumulated + delta >= 1.0
    ensures (if r.ticked then 1.0 else 0.0) + r.accumulated == accumulated + delta
    ensures accumulated >= 0.0 && delta >= 0.0 ==> r.accumulated >= 0.0
  {
    var sum := accumulated + delta;
    if sum >= 1.0 then FrameStep(sum - 1.0, true) else FrameStep(sum, false)
  }

  function SumOf(deltas: seq<real>): real {
    if deltas == [] then 0.0 else deltas[0] + SumOf(deltas[1..])
  }

  predicate NonNegative(deltas: seq<real>) {
    forall i :: 0 <= i < |deltas| ==> deltas[i] >= 0.0
  }

  /** The accumulator left after a run of frames and the ticks those frames issued. */
  datatype Tally = Tally(accumulated: real, ticks: nat)

  function RunFrames(accumulated: real, deltas: seq<real>): Tally
    decreases |deltas|
  {
    if deltas == [] then Tally(accumulated, 0)
    else
      var step := Accumulate(accumulated, deltas[0]);
      var rest := RunFrames(step.accumulated, deltas[1..]);
      Tally(rest.accumulated, rest.ticks + if step.ticked then 1 else 0)
  }

  /**
   * Time is conserved: ticks issued plus what is left in the accumulator equals
   * the starting accumulator plus the elapsed time; at most one tick per frame.
   */
  lemma {:induction false} FramesConserveTime(accumulated: real, deltas: seq<real>)
    ensures RunFrames(accumulated, deltas).ticks as real + RunFrames(accumulated, deltas).accumulated
            == accumulated + SumOf(deltas)
    ensures RunFrames(accumulated, deltas).ticks <= |deltas|
    ensures accumulated >= 0.0 && NonNegative(deltas) ==> RunFrames(accumulated, deltas).accumulated >= 0.0
    decreases |deltas|
  {
    if deltas != [] {
      var step := Accumulate(accumulated, deltas[0]);
      FramesConserveTime(step.accumulated, deltas[1..]);
      if accumulated >= 0.0 && NonNegative(deltas) {
        assert NonNegative(deltas[1..]) by {
          forall i | 0 <= i < |deltas[1..]| ensures deltas[1..][i] >= 0.0 {
            assert deltas[1..][i] == deltas[i + 1];
          }
        }
      }
    }
  }

  /** From an empty accumulator, the ticks never exceed the whole seconds elapsed. */
  lemma TicksNeverExceedElapsed(deltas: seq<real>)
    requires NonNegative(deltas)
    ensures RunFrames(0.0, deltas).ticks <= SumOf(deltas).Floor
  {
    FramesConserveTime(0.0, deltas);
  }

  /**
   * No catching up: one 3.4-second frame yields a single tick and leaves 2.4
   * seconds behind, where three 1.2-second frames yield three ticks.
   */
  lemma OneTickPerFrame()
    ensures RunFrames(0.0, [3.4]) == Tally(2.4, 1)
    ensures RunFrames(0.0, [1.2, 1.2, 1.2]).ticks == 3
  {
  }

  // ---------------------------------------------------------------------
  // The completion detector, as a function of what the effect observes.

  /** The effect fires the callback when the countdown sits at zero, running, not yet reported. */
  predicate CompletionFires(timeRemaining: int, isRunning: bool, completed: bool) {
    timeRemaining == 0 && isRunning && !completed
  }

  /** The "already reported" flag after the effect runs. */
  function CompletedAfter(timeRemaining: int, isRunning: bool, completed: bool): (flag: bool)
    ensures CompletionFires(timeRemaining, isRunning, completed) ==> flag
    ensures timeRemaining > 0 ==> !flag
    ensures !CompletionFires(timeRemaining, isRunning, completed) && timeRemaining <= 0 ==> flag == completed
  {
    if CompletionFires(timeRemaining, isRunning, completed) then true
    else if timeRemaining > 0 then false
    else completed
  }

  datatype Observation = Observation(timeRemaining: int, isRunning: bool)

  /** How many times the callback fires over a run of effect invocations. */
  function CountFires(completed: bool, observed: seq<Observation>): nat
    decreases |observed|
  {
    if observed == [] then 0
    else
      var o := observed[0];
      (if CompletionFires(o.timeRemaining, o.isRunning, completed) then 1 else 0)
      + CountFires(CompletedAfter(o.timeRemaining, o.isRunning, completed), observed[1..])
  }

  predicate StaysAtZero(observed: seq<Observation>) {
    forall i :: 0 <= i < |observed| ==> observed[i].timeRemaining == 0
  }

  predicate SomeRunning(observed: seq<Observation>) {
    exists i :: 0 <= i < |observed| && observed[i].isRunning
  }

  /**
   * While the countdown stays at zero the callback fires at most once, exactly
   * once if it was not yet reported and the timer is seen running, and never
   * if it was already reported.
   */
  lemma {:induction false} FiresOncePerCrossing(completed: bool, observed: seq<Observation>)
    requires StaysAtZero(observed)
    ensures CountFires(completed, observed) <= 1
    ensures completed ==> CountFires(completed, observed) == 0
    ensures !completed && SomeRunning(observed) ==> CountFires(completed, observed) == 1
    decreases |observed|
  {
    if observed != [] {
      var o := observed[0];
      var rest := observed[1..];
      assert StaysAtZero(rest) by {
        forall i | 0 <= i < |rest| ensures rest[i].timeRemaining == 0 {
          assert rest[i] == observed[i + 1];
        }
      }
      var next := CompletedAfter(o.timeRemaining, o.isRunning, completed);
      FiresOncePerCrossing(next, rest);
      if !completed && SomeRunning(observed) && !o.isRunning {
        var i :| 0 <= i < |observed| && observed[i].isRunning;
        assert rest[i - 1] == observed[i];
        assert SomeRunning(rest);
      }
    }
  }

  // ---------------------------------------------------------------------
  // The hook's refs, updated frame by frame.

  class TimerHook {
    /** Timestamp of the previous frame in milliseconds; 0 means "no frame yet". */
    var lastFrameTime: real
    /** Seconds built up towards the next tick. */
    var accumulated: real
    /** Whether the current zero has already been reported. */
    var sessionCompleted: bool
    /** Deferred session switches scheduled and not yet run. */
    var pendingSwitches: nat

    /** Seconds elapsed and ticks issued since the frame loop last (re)started. */
    ghost var elapsed: real
    ghost var ticks: nat

    ghost predicate Valid()
      reads this
    {
      && lastFrameTime >= 0.0
      && accumulated >= 0.0
      && ticks as real + accumulated == elapsed
    }

    constructor ()
      ensures Valid()
      ensures lastFrameTime == 0.0 && accumulated == 0.0 && !sessionCompleted && pendingSwitches == 0
      ensures elapsed == 0.0 && ticks == 0
    {
      lastFrameTime, accumulated := 0.0, 0.0;
      sessionCompleted, pendingSwitches := false, 0;
      elapsed, ticks := 0.0, 0;
    }

    /** The countdown effect seeing the timer stopped: both refs go back to zero. */
    method OnRunningChanged(isRunning: bool)
      requires Valid()
      modifies this
      ensures Valid()
      ensures !isRunning ==> lastFrameTime == 0.0 && accumulated == 0.0 && elapsed == 0.0 && ticks == 0
      ensures isRunning ==> lastFrameTime == old(lastFrameTime) && accumulated == old(accumulated)
                            && elapsed == old(elapsed) && ticks == old(ticks)
      ensures sessionCompleted == old(sessionCompleted) && pendingSwitches == old(pendingSwitches)
    {
      if !isRunning {
        lastFrameTime, accumulated := 0.0, 0.0;
        elapsed, ticks := 0.0, 0;
      }
    }

    /**
     * One animation frame at `currentTime` (ms). Returns the store after the
     * frame and whether the loop asks for another frame.
     */
    method Countdown(currentTime: real, store: TimerState) returns (next: TimerState, rearm: bool)
      requires Valid()
      requires currentTime >= 0.0 && (lastFrameTime == 0.0 || currentTime >= lastFrameTime)
      modifies this
      ensures Valid()
      ensures lastFrameTime == currentTime
      ensures var delta := if old(lastFrameTime) == 0.0 then 0.0 else (currentTime - old(lastFrameTime)) / 1000.0;
              var step := Accumulate(old(accumulated), delta);
              && accumulated == step.accumulated
              && next == (if step.ticked then Tick(store) else store)
              && elapsed == old(elapsed) + delta
              && ticks == old(ticks) + (if step.ticked then 1 else 0)
      ensures rearm == (store.isRunning && store.timeRemaining > 0)
      ensures sessionCompleted == old(sessionCompleted) && pendingSwitches == old(pendingSwitches)
    {
      if lastFrameTime == 0.0 {
        lastFrameTime := currentTime;
      }
      var deltaTime := (currentTime - lastFrameTime) / 1000.0;
      lastFrameTime := currentTime;
      accumulated := accumulated + deltaTime;
      elapsed := elapsed + deltaTime;
      next := store;
      if accumulated >= 1.0 {
        next := Tick(store);
        accumulated := accumulated - 1.0;
        ticks := ticks + 1;
      }
      rearm := store.isRunning && store.timeRemaining > 0;
    }

    /**
     * The completion effect. Returns whether the completion callback was
     * invoked; each invocation also schedules one deferred session switch.
     */
    method DetectCompletion(store: TimerState) returns (fired: bool)
      modifies this
      ensures fired == CompletionFires(store.timeRemaining, store.isRunning, old(sessionCompleted))
      ensures sessionCompleted == CompletedAfter(store.timeRemaining, store.isRunning, old(sessionCompleted))
      ensures pendingSwitches == old(pendingSwitches) + (if fired then 1 else 0)
      ensures lastFrameTime == old(lastFrameTime) && accumulated == old(accumulated)
      ensures elapsed == old(elapsed) && ticks == old(ticks)
    {
      fired := false;
      if store.timeRemaining == 0 && store.isRunning && !sessionCompleted {
        sessionCompleted := true;
        fired := true;
        pendingSwitches := pendingSwitches + 1;
      } else if store.timeRemaining > 0 {
        sessionCompleted := false;
      }
    }

    /** The one-second timer scheduled on completion: switch the session and clear the flag. */
    method GraceTimeout(store: TimerState) returns (next: TimerState)
      requires pendingSwitches > 0
      modifies this
      ensures next == SwitchSession(store)
      ensures !sessionCompleted && pendingSwitches == old(pendingSwitches) - 1
      ensures lastFrameTime == old(lastFrameTime) && accumulated == old(accumulated)
      ensures elapsed == old(elapsed) && ticks == old(ticks)
    {
      next := SwitchSession(store);
      sessionCompleted := false;
      pendingSwitches := pendingSwitches - 1;
    }
  }
}
