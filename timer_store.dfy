/**
 * The timer store: one record holding the countdown, the running flag, the
 * session kind and the corruption score, and the six actions that replace it
 * with a new record. Times are whole seconds.
 */
module TimerStore {

  datatype SessionType = Focus | Rest

  const FocusDuration: int := 1500
  const RestDuration: int := 300
  const CorruptionCap: int := 100

  /** Nominal length of a session of the given kind. */
  function Duration(kind: SessionType): int {
    if kind == Focus then FocusDuration else RestDuration
  }

  datatype TimerState = TimerState(
    timeRemaining: int,
    totalTime: int,
    isRunning: bool,
    sessionType: SessionType,
    corruptionLevel: int)

  /** What every reachable store satisfies. */
  predicate Valid(s: TimerState) {
    && 0 <= s.timeRemaining <= s.totalTime
    && 0 < s.totalTime
    && 0 <= s.corruptionLevel <= CorruptionCap
  }

  /** The store as created: a fresh, stopped focus session with no corruption. */
  function Initial(): (s: TimerState)
    ensures Valid(s)
    ensures s.sessionType == Focus && s.timeRemaining == s.totalTime == Duration(Focus)
    ensures !s.isRunning && s.corruptionLevel == 0
  {
    TimerState(FocusDuration, FocusDuration, false, Focus, 0)
  }

  function StartTimer(s: TimerState): (r: TimerState)
    ensures r.isRunning
    ensures r.(isRunning := s.isRunning) == s
    ensures s.isRunning ==> r == s
    ensures Valid(s) ==> Valid(r)
  {
    s.(isRunning := true)
  }

  /** Stops the countdown. The corruption score is left as it is. */
  function PauseTimer(s: TimerState): (r: TimerState)
    ensures !r.isRunning
    ensures r.corruptionLevel == s.corruptionLevel
    ensures r.(isRunning := s.isRunning) == s
    ensures !s.isRunning ==> r == s
    ensures Valid(s) ==> Valid(r)
  {
    s.(isRunning := false)
  }

  /** Back to the full length of the current session, stopped. */
  function ResetTimer(s: TimerState): (r: TimerState)
    ensures r.timeRemaining == r.totalTime == s.totalTime
    ensures !r.isRunning
    ensures r.sessionType == s.sessionType && r.corruptionLevel == s.corruptionLevel
    ensures Valid(s) ==> Valid(r)
  {
    s.(timeRemaining := s.totalTime, isRunning := false)
  }

  /** One second off the countdown, never below zero; nothing else changes. */
  function Tick(s: TimerState): (r: TimerState)
    ensures r.timeRemaining >= 0
    ensures s.timeRemaining >= 1 ==> r.timeRemaining == s.timeRemaining - 1
    ensures s.timeRemaining <= 1 ==> r.timeRemaining == 0
    ensures r == s.(timeRemaining := r.timeRemaining)
    ensures Valid(s) ==> Valid(r)
  {
    s.(timeRemaining := if s.timeRemaining - 1 > 0 then s.timeRemaining - 1 else 0)
  }

  /** Adds `amount` to the score, saturating at the cap; nothing else changes. */
  function IncrementCorruption(s: TimerState, amount: int): (r: TimerState)
    ensures r.corruptionLevel <= CorruptionCap
    ensures s.corruptionLevel + amount <= CorruptionCap ==> r.corruptionLevel == s.corruptionLevel + amount
    ensures s.corruptionLevel + amount >= CorruptionCap ==> r.corruptionLevel == CorruptionCap
    ensures r == s.(corruptionLevel := r.corruptionLevel)
    ensures Valid(s) && amount >= 0 ==> Valid(r)
  {
    var raised := s.corruptionLevel + amount;
    s.(corruptionLevel := if raised < CorruptionCap then raised else CorruptionCap)
  }

  /** Flips focus/rest, loads the new session's full length, stops, and clears the score. */
  function SwitchSession(s: TimerState): (r: TimerState)
    ensures r.sessionType != s.sessionType
    ensures r.totalTime == r.timeRemaining == Duration(r.sessionType)
    ensures !r.isRunning && r.corruptionLevel == 0
    ensures Valid(r)
  {
    var next := if s.sessionType == Focus then Rest else Focus;
    TimerState(Duration(next), Duration(next), false, next, 0)
  }

  /** Two switches bring back the session kind, at its full length, with a clean score. */
  lemma SwitchSessionTwice(s: TimerState)
    ensures SwitchSession(SwitchSession(s)).sessionType == s.sessionType
    ensures SwitchSession(SwitchSession(s)) == TimerState(Duration(s.sessionType), Duration(s.sessionType), false, s.sessionType, 0)
  {
  }

  /** The store after `n` calls of `tick`. */
  function TickN(s: TimerState, n: nat): TimerState {
    if n == 0 then s else Tick(TickN(s, n - 1))
  }

  /** `n` ticks take `n` seconds off, floored at zero, and touch nothing else. */
  lemma {:induction false} TickNFloorsAtZero(s: TimerState, n: nat)
    requires s.timeRemaining >= 0
    ensures TickN(s, n).timeRemaining == if s.timeRemaining - n > 0 then s.timeRemaining - n else 0
    ensures TickN(s, n) == s.(timeRemaining := TickN(s, n).timeRemaining)
  {
    if n > 0 {
      TickNFloorsAtZero(s, n - 1);
    }
  }

  /** 2000 ticks from a fresh store reach exactly zero. */
  lemma TwoThousandTicksReachZero()
    ensures TickN(Initial(), 2000).timeRemaining == 0
    ensures TickN(Initial(), 2000).totalTime == FocusDuration
  {
    TickNFloorsAtZero(Initial(), 2000);
  }

  function Sum(amounts: seq<int>): int {
    if amounts == [] then 0 else amounts[0] + Sum(amounts[1..])
  }

  predicate AllNonNegative(amounts: seq<int>) {
    forall i :: 0 <= i < |amounts| ==> amounts[i] >= 0
  }

  lemma {:induction false} SumNonNegative(amounts: seq<int>)
    requires AllNonNegative(amounts)
    ensures Sum(amounts) >= 0
  {
    if amounts != [] {
      SumNonNegative(amounts[1..]);
    }
  }

  /** The store after `incrementCorruption` with each amount in order. */
  function IncrementAll(s: TimerState, amounts: seq<int>): TimerState
    decreases |amounts|
  {
    if amounts == [] then s else IncrementAll(IncrementCorruption(s, amounts[0]), amounts[1..])
  }

  /** Non-negative increments accumulate and saturate: the order and grouping do not matter. */
  lemma {:induction false} IncrementsSaturate(s: TimerState, amounts: seq<int>)
    requires AllNonNegative(amounts) && s.corruptionLevel <= CorruptionCap
    ensures IncrementAll(s, amounts).corruptionLevel ==
            if s.corruptionLevel + Sum(amounts) < CorruptionCap then s.corruptionLevel + Sum(amounts) else CorruptionCap
    ensures IncrementAll(s, amounts) == s.(corruptionLevel := IncrementAll(s, amounts).corruptionLevel)
    decreases |amounts|
  {
    if amounts != [] {
      var next := IncrementCorruption(s, amounts[0]);
      IncrementsSaturate(next, amounts[1..]);
      SumNonNegative(amounts[1..]);
    }
  }

  /** 10, 20 and 15 accumulate to 45; 150 from zero caps at 100; nothing moves a full score. */
  lemma IncrementExamples(s: TimerState)
    requires s.corruptionLevel == CorruptionCap
    ensures IncrementAll(Initial(), [10, 20, 15]).corruptionLevel == 45
    ensures IncrementCorruption(Initial(), 150).corruptionLevel == CorruptionCap
    ensures IncrementCorruption(s, 10).corruptionLevel == CorruptionCap
  {
    IncrementsSaturate(Initial(), [10, 20, 15]);
  }

  /** The six actions, as the event alphabet of the store. */
  datatype Action = Start | Pause | Reset | TickAction | Increment(amount: int) | Switch

  function Apply(s: TimerState, a: Action): TimerState {
    match a
    case Start => StartTimer(s)
    case Pause => PauseTimer(s)
    case Reset => ResetTimer(s)
    case TickAction => Tick(s)
    case Increment(amount) => IncrementCorruption(s, amount)
    case Switch => SwitchSession(s)
  }

  function Run(s: TimerState, actions: seq<Action>): TimerState
    decreases |actions|
  {
    if actions == [] then s else Run(Apply(s, actions[0]), actions[1..])
  }

  /** The corruption increments the application issues are never negative. */
  predicate WellFormed(actions: seq<Action>) {
    forall i :: 0 <= i < |actions| ==> (actions[i].Increment? ==> actions[i].amount >= 0)
  }

  /** Every run of actions keeps 0 <= remaining <= total and the score in [0, 100]. */
  lemma {:induction false} RunPreservesValid(s: TimerState, actions: seq<Action>)
    requires Valid(s) && WellFormed(actions)
    ensures Valid(Run(s, actions))
    decreases |actions|
  {
    if actions != [] {
      assert Valid(Apply(s, actions[0]));
      RunPreservesValid(Apply(s, actions[0]), actions[1..]);
    }
  }

  /** Every reachable store is valid. */
  lemma ReachableIsValid(actions: seq<Action>)
    requires WellFormed(actions)
    ensures Valid(Run(Initial(), actions))
  {
    RunPreservesValid(Initial(), actions);
  }

  /** Pausing leaves the score where it was: a pause is not penalised by 5. */
  lemma PauseAddsNoCorruption(s: TimerState)
    requires s.corruptionLevel + 5 <= CorruptionCap
    ensures Run(s, [Pause]).corruptionLevel != s.corruptionLevel + 5
  {
  }
}
