/**
 * The frame-rate monitor: a window of the last 60 frame durations (ms), a
 * count of consecutive low-frame-rate checks, and two flags that, once set,
 * stay set: fewer particles after 180 low checks, no vignette after 360.
 */
module Performance {

  const WindowSize: nat := 60
  const LowFpsThreshold: real := 45.0
  const ReduceParticlesAfter: nat := 180
  const DisableVignetteAfter: nat := 360

  function TotalTime(frameTimes: seq<real>): real {
    if frameTimes == [] then 0.0 else TotalTime(frameTimes[..|frameTimes| - 1]) + frameTimes[|frameTimes| - 1]
  }

  /**
   * Mean frame time -> frames per second -> below 45? A zero mean gives an
   * infinite rate, which is not low.
   */
  predicate IsLowFps(frameTimes: seq<real>)
    requires |frameTimes| > 0
  {
    var mean := TotalTime(frameTimes) / |frameTimes| as real;
    mean != 0.0 && 1000.0 / mean < LowFpsThreshold
  }

  /** A steady 60 fps window (16 ms frames) is not low; a steady 20 fps window (50 ms frames) is. */
  lemma {:induction false} SteadyWindow(frameTimes: seq<real>, frameTime: real)
    requires |frameTimes| > 0 && forall i :: 0 <= i < |frameTimes| ==> frameTimes[i] == frameTime
    ensures TotalTime(frameTimes) == frameTime * |frameTimes| as real
    ensures frameTime == 16.0 ==> !IsLowFps(frameTimes)
    ensures frameTime == 50.0 ==> IsLowFps(frameTimes)
    decreases |frameTimes|
  {
    var n := |frameTimes|;
    if n > 1 {
      SteadyWindow(frameTimes[..n - 1], frameTime);
    }
    assert TotalTime(frameTimes) / n as real == frameTime;
  }

  /** The last `n` entries of `s` (all of `s` when shorter). */
  function LastN(s: seq<real>, n: nat): (r: seq<real>)
    ensures |r| == if |s| <= n then |s| else n
  {
    if |s| <= n then s else s[|s| - n..]
  }

  /** Appending one entry and dropping the oldest beyond `n` keeps the last `n` of the whole history. */
  lemma LastNAppend(history: seq<real>, x: real, n: nat)
    requires n > 0
    ensures var pushed := LastN(history, n) + [x];
            LastN(history + [x], n) == if |pushed| > n then pushed[1..] else pushed
  {
    var pushed := LastN(history, n) + [x];
    if |history| + 1 > n {
      assert (history + [x])[|history| + 1 - n..] == pushed[|pushed| - n..];
    }
  }

  /** The degradation state that each check updates. */
  datatype Degradation = Degradation(lowFpsCount: nat, shouldReduceParticles: bool, shouldDisableVignette: bool)

  /** One check: a low window extends the run and may set the flags; a good one ends the run. */
  function Check(d: Degradation, low: bool): (r: Degradation)
    ensures low ==> r.lowFpsCount == d.lowFpsCount + 1
    ensures !low ==> r.lowFpsCount == 0
    ensures d.shouldReduceParticles ==> r.shouldReduceParticles
    ensures d.shouldDisableVignette ==> r.shouldDisableVignette
    ensures r.shouldReduceParticles <==> d.shouldReduceParticles || r.lowFpsCount >= ReduceParticlesAfter
    ensures r.shouldDisableVignette <==> d.shouldDisableVignette || r.lowFpsCount >= DisableVignetteAfter
  {
    if low then
      var count := d.lowFpsCount + 1;
      Degradation(count,
                  d.shouldReduceParticles || count >= ReduceParticlesAfter,
                  d.shouldDisableVignette || count >= DisableVignetteAfter)
    else d.(lowFpsCount := 0)
  }

  /**
   * What every state reached by checks satisfies: the vignette is disabled only
   * with particles reduced, and a run at a threshold has set its flag.
   */
  predicate FlagsOrdered(d: Degradation) {
    && (d.shouldDisableVignette ==> d.shouldReduceParticles)
    && (d.lowFpsCount >= ReduceParticlesAfter ==> d.shouldReduceParticles)
    && (d.lowFpsCount >= DisableVignetteAfter ==> d.shouldDisableVignette)
  }

  function CheckRun(d: Degradation, lows: seq<bool>): Degradation
    decreases |lows|
  {
    if lows == [] then d else CheckRun(Check(d, lows[0]), lows[1..])
  }

  /** Both flags latch, and the vignette is never disabled before particles are reduced. */
  lemma {:induction false} FlagsLatch(d: Degradation, lows: seq<bool>)
    requires FlagsOrdered(d)
    ensures FlagsOrdered(CheckRun(d, lows))
    ensures d.shouldReduceParticles ==> CheckRun(d, lows).shouldReduceParticles
    ensures d.shouldDisableVignette ==> CheckRun(d, lows).shouldDisableVignette
    decreases |lows|
  {
    if lows != [] {
      FlagsLatch(Check(d, lows[0]), lows[1..]);
    }
  }

  /** `k` low checks in a row raise the count by `k`, and set each flag once its threshold is reached. */
  lemma {:induction false} ConsecutiveLowChecks(d: Degradation, k: nat)
    requires FlagsOrdered(d)
    ensures var r := CheckRun(d, seq(k, _ => true));
            && r.lowFpsCount == d.lowFpsCount + k
            && (d.lowFpsCount + k >= ReduceParticlesAfter ==> r.shouldReduceParticles)
            && (d.lowFpsCount + k >= DisableVignetteAfter ==> r.shouldDisableVignette)
    decreases k
  {
    if k > 0 {
      var lows := seq(k, _ => true);
      assert lows[0] && lows[1..] == seq(k - 1, _ => true);
      ConsecutiveLowChecks(Check(d, true), k - 1);
    }
  }

  /** From a fresh monitor, 180 low checks reduce particles, and 360 also disable the vignette. */
  lemma DegradationThresholds()
    ensures CheckRun(Degradation(0, false, false), seq(180, _ => true)).shouldReduceParticles
    ensures !CheckRun(Degradation(0, false, false), seq(180, _ => true)).shouldDisableVignette
    ensures CheckRun(Degradation(0, false, false), seq(360, _ => true)).shouldDisableVignette
  {
    ConsecutiveLowChecks(Degradation(0, false, false), 180);
    ConsecutiveLowChecks(Degradation(0, false, false), 360);
    FewerThanThresholdKeepsVignette(Degradation(0, false, false), seq(180, _ => true));
  }

  /** The count never exceeds the starting count plus the number of checks. */
  lemma {:induction false} FewerThanThresholdKeepsVignette(d: Degradation, lows: seq<bool>)
    requires !d.shouldDisableVignette && d.lowFpsCount + |lows| < DisableVignetteAfter
    ensures !CheckRun(d, lows).shouldDisableVignette
    ensures CheckRun(d, lows).lowFpsCount <= d.lowFpsCount + |lows|
    decreases |lows|
  {
    if lows != [] {
      FewerThanThresholdKeepsVignette(Check(d, lows[0]), lows[1..]);
    }
  }

  class PerformanceMonitor {
    var frameTimes: seq<real>
    var lastTime: real
    var lowFpsCount: nat
    var shouldReduceParticles: bool
    var shouldDisableVignette: bool
    /** Every frame duration observed so far, oldest first. */
    ghost var history: seq<real>

    ghost predicate Valid()
      reads this
    {
      && frameTimes == LastN(history, WindowSize)
      && FlagsOrdered(State())
    }

    function State(): Degradation
      reads this
    {
      Degradation(lowFpsCount, shouldReduceParticles, shouldDisableVignette)
    }

    /** `now` is the clock reading at mount. */
    constructor (now: real)
      ensures Valid() && frameTimes == [] && history == [] && lastTime == now
      ensures State() == Degradation(0, false, false)
    {
      frameTimes, lastTime, history := [], now, [];
      lowFpsCount, shouldReduceParticles, shouldDisableVignette := 0, false, false;
    }

    /** `checkPerformance`: nothing on an empty window; otherwise one `Check` of the window's rate. */
    method CheckPerformance()
      requires Valid()
      modifies this
      ensures Valid()
      ensures frameTimes == old(frameTimes) && lastTime == old(lastTime) && history == old(history)
      ensures |frameTimes| == 0 ==> State() == old(State())
      ensures |frameTimes| > 0 ==> State() == Check(old(State()), IsLowFps(frameTimes))
    {
      if |frameTimes| == 0 {
        return;
      }
      var mean := TotalTime(frameTimes) / |frameTimes| as real;
      if mean != 0.0 && 1000.0 / mean < LowFpsThreshold {
        lowFpsCount := lowFpsCount + 1;
        if lowFpsCount >= ReduceParticlesAfter {
          if !shouldReduceParticles {
            shouldReduceParticles := true;
          }
          if lowFpsCount >= DisableVignetteAfter && !shouldDisableVignette {
            shouldDisableVignette := true;
          }
        }
      } else {
        lowFpsCount := 0;
      }
    }

    /**
     * The per-frame callback: record the time since the previous frame, keep the
     * last 60, and check the rate whenever the window is full.
     */
    method OnFrame(now: real)
      requires Valid()
      modifies this
      ensures Valid()
      ensures lastTime == now && history == old(history) + [now - old(lastTime)]
      ensures frameTimes == LastN(history, WindowSize) && |frameTimes| <= WindowSize
      ensures frameTimes[|frameTimes| - 1] == now - old(lastTime)
      ensures |frameTimes| == WindowSize ==> State() == Check(old(State()), IsLowFps(frameTimes))
      ensures |frameTimes| < WindowSize ==> State() == old(State())
    {
      var deltaTime := now - lastTime;
      lastTime := now;
      LastNAppend(history, deltaTime, WindowSize);
      history := history + [deltaTime];
      frameTimes := frameTimes + [deltaTime];
      if |frameTimes| > WindowSize {
        frameTimes := frameTimes[1..];
      }
      if |frameTimes| == WindowSize {
        CheckPerformance();
      }
    }
  }

  /** Once 60 frames have been seen, every later frame is checked. */
  lemma FullAfterSixty(history: seq<real>)
    requires |history| >= WindowSize
    ensures |LastN(history, WindowSize)| == WindowSize
  {
  }
}
