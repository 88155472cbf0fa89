/**
 * The corruption hook: attention-loss events (window blur, tab hidden) raise
 * the score by 10 through a 500 ms debounce, and the score drives the
 * text-distortion and darkening-overlay thresholds. Wall-clock times are
 * integer milliseconds supplied by the caller.
 */
module Corruption {
  import opened TimerStore

  const CorruptionOnTabSwitch: int := 10
  const DebounceMs: int := 500

  /** An increment is let through when at least 500 ms have passed since the last accepted one. */
  predicate Accepts(now: int, lastIncrementTime: int) {
    now - lastIncrementTime >= DebounceMs
  }

  /** The debounce over a sequence of event times: how many got through, and the last accepted time. */
  datatype Debounced = Debounced(accepted: nat, lastIncrementTime: int)

  function DebounceRun(lastIncrementTime: int, times: seq<int>): Debounced
    decreases |times|
  {
    if times == [] then Debounced(0, lastIncrementTime)
    else if Accepts(times[0], lastIncrementTime) then
      var rest := DebounceRun(times[0], times[1..]);
      Debounced(rest.accepted + 1, rest.lastIncrementTime)
    else DebounceRun(lastIncrementTime, times[1..])
  }

  /** A burst of events all within 500 ms of an accepted first one counts once. */
  lemma {:induction false} BurstCountsOnce(first: int, later: seq<int>)
    requires forall i :: 0 <= i < |later| ==> first <= later[i] < first + DebounceMs
    ensures DebounceRun(first, later) == Debounced(0, first)
    decreases |later|
  {
    if later != [] {
      BurstCountsOnce(first, later[1..]);
    }
  }

  /** Two events less than 500 ms apart yield exactly one accepted increment. */
  lemma TwoCloseEventsCountOnce(lastIncrementTime: int, t1: int, t2: int)
    requires Accepts(t1, lastIncrementTime) && t1 <= t2 < t1 + DebounceMs
    ensures DebounceRun(lastIncrementTime, [t1, t2]) == Debounced(1, t1)
  {
    BurstCountsOnce(t1, [t2]);
  }

  /** The ref starts at 0, so the first event at 500 ms or later is let through. */
  lemma FirstEventAccepted(now: int)
    requires now >= DebounceMs
    ensures DebounceRun(0, [now]).accepted == 1
  {
  }

  /** The debounce never lets through more events than there were. */
  lemma {:induction false} DebounceBounded(lastIncrementTime: int, times: seq<int>)
    ensures DebounceRun(lastIncrementTime, times).accepted <= |times|
    decreases |times|
  {
    if times != [] {
      DebounceBounded(times[0], times[1..]);
      DebounceBounded(lastIncrementTime, times[1..]);
    }
  }

  /** Text distortion switches on strictly above 50. */
  predicate ShouldApplyZalgo(corruptionLevel: int) {
    corruptionLevel > 50
  }

  /** The darkening overlay switches on strictly above 80. */
  predicate ShouldApplyVignette(corruptionLevel: int) {
    corruptionLevel > 80
  }

  /** Overlay strength: ramps from 0 just above 80 to 1 at 100. */
  function VignetteIntensity(corruptionLevel: int): (r: real)
    ensures corruptionLevel <= 100 ==> 0.0 <= r <= 1.0
    ensures r == 0.0 <==> !ShouldApplyVignette(corruptionLevel)
    ensures r == 1.0 <==> corruptionLevel >= 100
  {
    if ShouldApplyVignette(corruptionLevel) then
      var ramp := (corruptionLevel - 80) as real / 20.0;
      if ramp < 1.0 then ramp else 1.0
    else 0.0
  }

  /** The overlay only ever appears on top of distorted text, and grows with the score. */
  lemma ThresholdsNested(c: int, d: int)
    requires c <= d
    ensures ShouldApplyVignette(c) ==> ShouldApplyZalgo(c)
    ensures VignetteIntensity(c) <= VignetteIntensity(d)
  {
  }

  class CorruptionHook {
    /** Time of the last accepted increment, in ms. */
    var lastIncrementTime: int

    constructor ()
      ensures lastIncrementTime == 0
    {
      lastIncrementTime := 0;
    }

    /** Raise the score by `amount` unless an increment was accepted less than 500 ms before `now`. */
    method IncrementWithDebounce(now: int, amount: int, store: TimerState) returns (next: TimerState)
      modifies this
      ensures Accepts(now, old(lastIncrementTime)) ==>
                next == IncrementCorruption(store, amount) && lastIncrementTime == now
      ensures !Accepts(now, old(lastIncrementTime)) ==>
                next == store && lastIncrementTime == old(lastIncrementTime)
    {
      next := store;
      if now - lastIncrementTime >= DebounceMs {
        next := IncrementCorruption(store, amount);
        lastIncrementTime := now;
      }
    }

    /** Window blur: always asks for +10. */
    method HandleBlur(now: int, store: TimerState) returns (next: TimerState)
      modifies this
      ensures Accepts(now, old(lastIncrementTime)) ==>
                next == IncrementCorruption(store, CorruptionOnTabSwitch) && lastIncrementTime == now
      ensures !Accepts(now, old(lastIncrementTime)) ==>
                next == store && lastIncrementTime == old(lastIncrementTime)
    {
      next := IncrementWithDebounce(now, CorruptionOnTabSwitch, store);
    }

    /** Visibility change: asks for +10 only when the document became hidden. */
    method HandleVisibilityChange(now: int, hidden: bool, store: TimerState) returns (next: TimerState)
      modifies this
      ensures hidden && Accepts(now, old(lastIncrementTime)) ==>
                next == IncrementCorruption(store, CorruptionOnTabSwitch) && lastIncrementTime == now
      ensures !hidden || !Accepts(now, old(lastIncrementTime)) ==>
                next == store && lastIncrementTime == old(lastIncrementTime)
    {
      next := store;
      if hidden {
        next := IncrementWithDebounce(now, CorruptionOnTabSwitch, store);
      }
    }
  }
}
