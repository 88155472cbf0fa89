/**
 * The top-level component's event dispatch: the control buttons, the keyboard
 * shortcuts and the loss of the graphics context each become an ordered list
 * of calls (a click sound, a store action), and a few booleans decide which
 * overlays are shown.
 */
module App {
  import opened Wrappers
  import opened TimerStore
  import Corruption
  import Performance
  import AudioHook

  /** One call a handler makes, in order: the click sound, or a store action. */
  datatype Call = PlayClick | Control(action: Action)

  function HandleStart(): seq<Call> {
    [PlayClick, Control(Start)]
  }

  function HandlePause(): seq<Call> {
    [PlayClick, Control(Pause)]
  }

  function HandleReset(): seq<Call> {
    [PlayClick, Control(Reset)]
  }

  /** Losing the graphics context pauses a running timer, silently. */
  function HandleContextLoss(isRunning: bool): seq<Call> {
    if isRunning then [Control(Pause)] else []
  }

  /** Where a key event was aimed: a text input, a text area, or anything else. */
  datatype KeyTarget = InputField | TextArea | OtherTarget

  /** What a key press does: whether the browser default is suppressed, and the calls made. */
  datatype KeyOutcome = KeyOutcome(preventDefault: bool, calls: seq<Call>)

  /**
   * The global key handler: typing in a field is left alone; Space pauses a
   * running timer and starts a stopped one; R resets.
   */
  function HandleKeyDown(code: string, target: KeyTarget, isRunning: bool): KeyOutcome {
    if target == InputField || target == TextArea then KeyOutcome(false, [])
    else
      var space := if code == "Space" then (if isRunning then HandlePause() else HandleStart()) else [];
      var reset := if code == "KeyR" then HandleReset() else [];
      KeyOutcome(code == "Space" || code == "KeyR", space + reset)
  }

  /** The store after a list of calls: the click sound leaves it alone. */
  function Effect(s: TimerState, calls: seq<Call>): TimerState
    decreases |calls|
  {
    if calls == [] then s
    else
      var next := if calls[0].Control? then Apply(s, calls[0].action) else s;
      Effect(next, calls[1..])
  }

  /** Number of click sounds in a list of calls. */
  function Clicks(calls: seq<Call>): nat
    decreases |calls|
  {
    if calls == [] then 0 else (if calls[0] == PlayClick then 1 else 0) + Clicks(calls[1..])
  }

  /** Every store action in the list comes straight after a click sound. */
  predicate ClickedFirst(calls: seq<Call>) {
    forall i :: 0 <= i < |calls| && calls[i].Control? ==> 0 < i && calls[i - 1] == PlayClick
  }

  /** The three buttons click and then act; each moves the store exactly as its action does. */
  lemma ButtonsClickFirst(s: TimerState)
    ensures ClickedFirst(HandleStart()) && Clicks(HandleStart()) == 1 && Effect(s, HandleStart()) == StartTimer(s)
    ensures ClickedFirst(HandlePause()) && Clicks(HandlePause()) == 1 && Effect(s, HandlePause()) == PauseTimer(s)
    ensures ClickedFirst(HandleReset()) && Clicks(HandleReset()) == 1 && Effect(s, HandleReset()) == ResetTimer(s)
  {
  }

  /** Every key press that does anything clicks before each action, and at most once per action. */
  lemma KeyDownClicksFirst(code: string, target: KeyTarget, isRunning: bool)
    ensures var out := HandleKeyDown(code, target, isRunning);
            ClickedFirst(out.calls) && Clicks(out.calls) <= 1 && |out.calls| == 2 * Clicks(out.calls)
    ensures HandleKeyDown(code, target, isRunning).calls != [] <==> target == OtherTarget && (code == "Space" || code == "KeyR")
    ensures HandleKeyDown(code, target, isRunning).preventDefault <==> HandleKeyDown(code, target, isRunning).calls != []
  {
    var out := HandleKeyDown(code, target, isRunning);
    if target == OtherTarget && code == "Space" {
      assert code != "KeyR";
      assert out.calls == (if isRunning then HandlePause() else HandleStart());
    } else if target == OtherTarget && code == "KeyR" {
      assert out.calls == HandleReset();
    }
  }

  /** Keys typed into a text input or text area change nothing and keep their default. */
  lemma TypingIgnored(s: TimerState, code: string, target: KeyTarget, isRunning: bool)
    requires target != OtherTarget
    ensures !HandleKeyDown(code, target, isRunning).preventDefault
    ensures Effect(s, HandleKeyDown(code, target, isRunning).calls) == s
  {
  }

  /** Space toggles the running flag of the store it is given, and changes nothing else. */
  lemma SpaceToggles(s: TimerState)
    ensures var out := HandleKeyDown("Space", OtherTarget, s.isRunning);
            && out.preventDefault && Clicks(out.calls) == 1
            && Effect(s, out.calls) == s.(isRunning := !s.isRunning)
  {
    var out := HandleKeyDown("Space", OtherTarget, s.isRunning);
    assert out.calls == (if s.isRunning then HandlePause() else HandleStart());
  }

  /** R resets, whether the timer runs or not, with one click. */
  lemma KeyRResets(s: TimerState, isRunning: bool)
    ensures var out := HandleKeyDown("KeyR", OtherTarget, isRunning);
            && out.preventDefault && Clicks(out.calls) == 1
            && Effect(s, out.calls) == ResetTimer(s)
  {
    var out := HandleKeyDown("KeyR", OtherTarget, isRunning);
    assert out.calls == HandleReset();
  }

  /** Losing the context leaves the timer stopped, plays no click, and otherwise leaves the store alone. */
  lemma ContextLossStops(s: TimerState)
    ensures Clicks(HandleContextLoss(s.isRunning)) == 0
    ensures Effect(s, HandleContextLoss(s.isRunning)) == PauseTimer(s)
    ensures !Effect(s, HandleContextLoss(s.isRunning)).isRunning
    ensures HandleContextLoss(s.isRunning) == [] <==> !s.isRunning
  {
  }

  /** The vignette is drawn when the score asks for it and the frame-rate monitor has not switched it off. */
  predicate ShowVignette(shouldApplyVignette: bool, performanceVignetteDisabled: bool) {
    shouldApplyVignette && !performanceVignetteDisabled
  }

  /** The vignette shows exactly above a score of 80 while the monitor allows it. */
  lemma VignetteShownAbove80(corruptionLevel: int, performanceVignetteDisabled: bool)
    ensures ShowVignette(Corruption.ShouldApplyVignette(corruptionLevel), performanceVignetteDisabled)
            <==> corruptionLevel > 80 && !performanceVignetteDisabled
  {
  }

  /** Once the monitor disables the vignette, no later run of checks and no score brings it back. */
  lemma {:induction false} VignetteOffOnceDisabled(d: Performance.Degradation, lows: seq<bool>, corruptionLevel: int)
    requires Performance.FlagsOrdered(d) && d.shouldDisableVignette
    ensures !ShowVignette(Corruption.ShouldApplyVignette(corruptionLevel), Performance.CheckRun(d, lows).shouldDisableVignette)
  {
    Performance.FlagsLatch(d, lows);
  }

  /** A string error counts only when it is non-empty. */
  predicate HasError(audioError: Option<string>) {
    audioError.Some? && audioError.value != []
  }

  /** The "click to enable audio" prompt. */
  predicate ShowAudioPrompt(needsUserInteraction: bool) {
    needsUserInteraction
  }

  /** The keyboard-hints bar: hidden while the prompt shows or an audio error is set. */
  predicate ShowInfoBar(needsUserInteraction: bool, audioError: Option<string>) {
    !needsUserInteraction && !HasError(audioError)
  }

  /** The "visual-only" notice: an audio error in a browser without audio support. */
  predicate ShowVisualOnlyNotice(audioError: Option<string>, hasAudioSupport: bool) {
    HasError(audioError) && !hasAudioSupport
  }

  /** The hints bar never shares the bottom of the screen with the prompt or the notice. */
  lemma BottomOverlaysExclusive(needsUserInteraction: bool, audioError: Option<string>, hasAudioSupport: bool)
    ensures ShowInfoBar(needsUserInteraction, audioError) ==> !ShowAudioPrompt(needsUserInteraction)
    ensures ShowInfoBar(needsUserInteraction, audioError) ==> !ShowVisualOnlyNotice(audioError, hasAudioSupport)
  {
  }

  /**
   * The audio outcomes as the overlays show them: no support gives the notice;
   * a start blocked by the browser gives the prompt; a failure in a supporting
   * browser with a running context shows none of the three; success shows the bar.
   */
  lemma AudioOverlays(needsUserInteraction: bool)
    ensures ShowVisualOnlyNotice(Some(AudioHook.UnsupportedMessage), false)
    ensures !ShowInfoBar(needsUserInteraction, Some(AudioHook.UnsupportedMessage))
    ensures ShowAudioPrompt(true) && !ShowInfoBar(true, Some(AudioHook.InitFailedMessage))
    ensures !ShowVisualOnlyNotice(Some(AudioHook.InitFailedMessage), true)
    ensures !ShowAudioPrompt(false) && !ShowInfoBar(false, Some(AudioHook.InitFailedMessage))
    ensures ShowInfoBar(false, None)
  {
  }
}
