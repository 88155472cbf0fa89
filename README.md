# Memento mori timer — a verified model of its core

The memento mori timer is a browser Pomodoro timer. A 25-minute focus session alternates with a
5-minute rest. A "corruption" score punishes leaving the tab: the score distorts the countdown
text with combining marks and darkens the screen with a vignette. An audio engine plays a
noise bed while the timer runs, a rising drone in the last minute, a click on every control, and
a chord when a session completes. This project models the logic behind all of that in Dafny:

| module | file | models |
|---|---|---|
| `TimerStore` | `timer_store.dfy` | the store record and its six actions (pure functions) |
| `TimerHook` | `use_timer.dfy` | progress, the frame accumulator that turns frames into one-second ticks, and the completion detector (a class over the hook's refs) |
| `Corruption` | `use_corruption.dfy` | the 500 ms debounced +10 on blur/hidden tab, and the 50 / 80 thresholds |
| `Performance` | `use_performance.dfy` | the 60-frame window, the low-frame-rate run counter and the two latching degradation flags |
| `AudioEngine` | `audio_manager.dfy` | the audio engine singleton: context state, held noise chain and drone bank, released nodes, emitted cues |
| `AudioHook` | `use_audio.dfy` | the audio hook's refs and state, driving the engine from the timer |
| `TimeFormat` | `format_time.dfy` | `MM:SS` rendering |
| `Zalgo` | `zalgo_text.dfy` | the combining-mark distortion, with `Math.random` as an explicit stream |
| `TimerDisplay` | `timer_display.dfy` | the distorted visible text and the clean screen-reader text |
| `TimeSettings` | `time_settings.dfy` | presets, the custom-minutes field, the panel state |
| `App` | `app.dfy` | the control handlers, keyboard shortcuts, context-loss pause and the overlay conditions |
| `Digits`, `Wrappers` | `digits.dfy`, `wrappers.dfy` | decimal strings (`String(n)`, `parseInt` digits) and `Option` |

Modelling choices:

- The store is a value. Each action is a function from the old record to the new one.
- Hooks that keep refs are classes whose fields are those refs. They receive the store as an
  argument and return the new store.
- Clock readings are parameters: frame timestamps in milliseconds, `Date.now()` in milliseconds,
  and `performance.now()`.
- `Math.random()` is a stream `rand: nat -> Unit` of values in [0, 1). Each draw reads
  `rand(cursor)`, and the advanced cursor is returned with the result.
- Web Audio nodes are opaque handles: a fresh id plus the one parameter the engine sets (a
  frequency or a gain).
- The platform's answers are inputs:
  - whether the Web Audio API exists;
  - whether creating a context throws;
  - whether the context starts suspended;
  - whether `resume` resolves.

Where the code disagrees with its own tests or comments, the model follows the code:

- `timerStore.test.ts:47-61` expects a pause to add 5 to the corruption score and to reach the
  cap of 100 that way. `pauseTimer` (`timerStore.ts:39`) only clears the running flag
  (`TimerStore.PauseAddsNoCorruption`).
- The comment at `useTimer.ts:78` says the countdown ticks every second. The code ticks at most
  once per animation frame, and a long frame leaves the surplus in the accumulator, so a slow
  frame delays the countdown (`TimerHook.OneTickPerFrame`).
- The comment at `useAudio.ts:95` says the drone stops when the time goes back above 60 s, for
  example after a reset. A reset also stops the timer, and the effect returns at `useAudio.ts:80`
  whenever the timer is stopped, so after a reset the drone keeps playing until the timer is
  started again (`AudioHook.AudioHook.ShepardEffect`).
- `enableAudio` logs "Audio enabled by user interaction" (`useAudio.ts:134`) after a successful
  `resumeAudioContext`, which never sets the engine's own initialised flag. After an
  autoplay-blocked start the hook believes audio works, but the engine still plays nothing
  (`AudioHook.EnableAfterBlockedStart`).
- `zalgoText.test.ts:17-27` expects the text to grow at intensity 0.5. That does not hold for every
  random stream: a stream of zeros adds nothing (`Zalgo.MediumIntensityMayAddNothing`).
- The comment at `usePerformance.ts:72` says the frame rate is checked every 60 frames. Once its
  window holds 60 frames the check runs on every frame (`Performance.FullAfterSixty`).

The settings panel's handlers call `setCustomTime`, which the store does not define. The model
has the handlers return the minutes they ask for instead of changing the store.

## Model

| member | source | states |
|---|---|---|
| Digits.NatToString | memento-mori-timer/src/utils/formatTime.ts:17-18 | `String(n)` of a whole number is a non-empty string of decimal digits |
| Digits.NatToStringRoundTrip | memento-mori-timer/src/utils/formatTime.ts:17-18 | reading `String(n)` back gives `n`; it has one digit exactly when `n < 10` and at most two exactly when `n < 100` |
| Digits.LeadingZero | memento-mori-timer/src/utils/formatTime.ts:17-18 | a leading "0" keeps a digit string a digit string and does not change its value |
| TimeFormat.Pad2 | memento-mori-timer/src/utils/formatTime.ts:17-18 | `padStart(2, "0")`: the result has length max(2, \|s\|), ends with `s`, and has only zeros before it |
| TimeFormat.Pad2Value | memento-mori-timer/src/utils/formatTime.ts:17-18 | padding a digit string keeps it all digits and keeps its value |
| TimeFormat.FormatTimeRoundTrip | memento-mori-timer/src/utils/formatTime.ts:6-21 | the output is MM:SS with at least two minute digits and two second digits below 60, and MM*60+SS is the input with negatives read as 0; the output has length 5 exactly when the input is below 6000 |
| TimeFormat.FormatTimeInjective | memento-mori-timer/src/utils/formatTime.ts:13-20 | two non-negative inputs with the same rendering are equal |
| TimeFormat.FormatTimeExamples | memento-mori-timer/src/utils/formatTime.test.ts:5-31 | every non-positive input gives "00:00"; 45, 65, 125, 300 and 1500 give "00:45", "01:05", "02:05", "05:00" and "25:00" |
| TimerStore.Initial | memento-mori-timer/src/store/timerStore.ts:24-33 | the store starts as a valid, stopped focus session at 1500 of 1500 seconds with score 0 |
| TimerStore.StartTimer | memento-mori-timer/src/store/timerStore.ts:36 | sets the running flag and changes nothing else; starting a running timer is a no-op; validity is kept |
| TimerStore.PauseTimer | memento-mori-timer/src/store/timerStore.ts:39 | clears the running flag and changes nothing else, the score included; pausing a stopped timer is a no-op |
| TimerStore.ResetTimer | memento-mori-timer/src/store/timerStore.ts:42-46 | remaining time becomes the session's total, the timer stops, and the kind and score are kept |
| TimerStore.Tick | memento-mori-timer/src/store/timerStore.ts:49-52 | one second off the countdown, never below zero; nothing else changes |
| TimerStore.IncrementCorruption | memento-mori-timer/src/store/timerStore.ts:55-58 | adds the amount, saturating at 100, and changes only the score; a non-negative amount keeps the store valid |
| TimerStore.SwitchSession | memento-mori-timer/src/store/timerStore.ts:61-74 | the other session kind, loaded at its full length, stopped, with score 0; the result is always valid |
| TimerStore.SwitchSessionTwice | memento-mori-timer/src/store/timerStore.test.ts:123-141 | two switches bring back the session kind at its full length, stopped, with score 0 |
| TimerStore.TickNFloorsAtZero | memento-mori-timer/src/store/timerStore.ts:49-52 | n ticks leave max(remaining − n, 0) and touch no other field |
| TimerStore.TwoThousandTicksReachZero | memento-mori-timer/src/store/timerStore.test.ts:91-98 | 2000 ticks from a fresh store reach exactly 0 |
| TimerStore.IncrementsSaturate | memento-mori-timer/src/store/timerStore.ts:55-58 | a run of non-negative increments leaves min(score + sum, 100) and touches no other field |
| TimerStore.IncrementExamples | memento-mori-timer/src/store/timerStore.test.ts:101-120 | 10, 20 and 15 accumulate to 45; 150 caps at 100; a full score stays at 100 |
| TimerStore.RunPreservesValid | memento-mori-timer/src/store/timerStore.ts:27-74 | every run of actions with non-negative increments keeps 0 ≤ remaining ≤ total, total > 0 and the score in [0, 100] |
| TimerStore.ReachableIsValid | memento-mori-timer/src/store/timerStore.ts:27-74 | every store reachable from the initial one is valid |
| TimerStore.PauseAddsNoCorruption | memento-mori-timer/src/store/timerStore.test.ts:47-61 | a pause does not add 5 to the score, contrary to the store tests |
| TimerHook.Progress | memento-mori-timer/src/hooks/useTimer.ts:33 | progress is 0 without a positive total and lies in [0, 1]; it is 0 exactly at full time and 1 exactly at zero |
| TimerHook.ProgressNeverDecreasesOnTick | memento-mori-timer/src/hooks/useTimer.ts:33 | a tick never moves progress backwards |
| TimerHook.Accumulate | memento-mori-timer/src/hooks/useTimer.ts:76-82 | a frame ticks exactly when the accumulator reaches one second; ticks plus the remainder conserve time; the accumulator stays non-negative |
| TimerHook.FramesConserveTime | memento-mori-timer/src/hooks/useTimer.ts:72-82 | over any run of frames, ticks plus what is left equal the starting accumulator plus the elapsed time, with at most one tick per frame |
| TimerHook.TicksNeverExceedElapsed | memento-mori-timer/src/hooks/useTimer.ts:72-82 | from an empty accumulator the ticks never exceed the whole seconds elapsed |
| TimerHook.OneTickPerFrame | memento-mori-timer/src/hooks/useTimer.ts:79-82 | one 3.4 s frame yields one tick and keeps 2.4 s; three 1.2 s frames yield three ticks |
| TimerHook.CompletedAfter | memento-mori-timer/src/hooks/useTimer.ts:36-53 | the "reported" flag is set when completion fires, cleared while time remains, and kept otherwise |
| TimerHook.FiresOncePerCrossing | memento-mori-timer/src/hooks/useTimer.ts:36-53 | while the countdown stays at zero the callback fires at most once, exactly once if unreported and seen running, never if already reported |
| TimerHook.TimerHook.constructor | memento-mori-timer/src/hooks/useTimer.ts:17-19 | the refs start at 0, 0 and false |
| TimerHook.TimerHook.OnRunningChanged | memento-mori-timer/src/hooks/useTimer.ts:57-61 | a stopped timer zeroes the frame timestamp and the accumulator; otherwise nothing changes |
| TimerHook.TimerHook.Countdown | memento-mori-timer/src/hooks/useTimer.ts:65-88 | one frame: the first frame counts 0 s, the accumulator advances as `Accumulate` says, the store ticks exactly when it does, ticks plus accumulator keep equal to elapsed time, and the loop re-arms only while running with time left |
| TimerHook.TimerHook.DetectCompletion | memento-mori-timer/src/hooks/useTimer.ts:36-53 | fires exactly when `CompletionFires`, updates the flag as `CompletedAfter`, and schedules one switch per firing |
| TimerHook.TimerHook.GraceTimeout | memento-mori-timer/src/hooks/useTimer.ts:46-49 | the deferred callback switches the session and clears the flag |
| Corruption.BurstCountsOnce | memento-mori-timer/src/hooks/useCorruption.ts:22-28 | events within 500 ms after an accepted one are all rejected |
| Corruption.TwoCloseEventsCountOnce | memento-mori-timer/src/hooks/useCorruption.ts:22-28 | two events under 500 ms apart give exactly one increment |
| Corruption.FirstEventAccepted | memento-mori-timer/src/hooks/useCorruption.ts:19-28 | with the ref at 0, an event at 500 ms or later is accepted |
| Corruption.DebounceBounded | memento-mori-timer/src/hooks/useCorruption.ts:22-28 | the debounce never accepts more events than it sees |
| Corruption.VignetteIntensity | memento-mori-timer/src/hooks/useCorruption.ts:54-57 | the strength is in [0, 1] for scores up to 100, is 0 exactly when the vignette is off, and is 1 exactly from 100 |
| Corruption.ThresholdsNested | memento-mori-timer/src/hooks/useCorruption.ts:53-57 | the vignette only appears with distortion, and its strength grows with the score |
| Corruption.CorruptionHook.constructor | memento-mori-timer/src/hooks/useCorruption.ts:19 | the last-increment time starts at 0 |
| Corruption.CorruptionHook.IncrementWithDebounce | memento-mori-timer/src/hooks/useCorruption.ts:22-28 | at least 500 ms after the last accepted increment: the store is incremented and the time recorded; otherwise nothing changes |
| Corruption.CorruptionHook.HandleBlur | memento-mori-timer/src/hooks/useCorruption.ts:32-34 | a blur asks for +10 through the debounce |
| Corruption.CorruptionHook.HandleVisibilityChange | memento-mori-timer/src/hooks/useCorruption.ts:37-41 | only a change to hidden asks for +10 through the debounce |
| Performance.SteadyWindow | memento-mori-timer/src/hooks/usePerformance.ts:25-32 | a window of equal frames sums to their product; 16 ms frames are not low, 50 ms frames are |
| Performance.LastN | memento-mori-timer/src/hooks/usePerformance.ts:67-70 | the window holds min(n, history) entries |
| Performance.LastNAppend | memento-mori-timer/src/hooks/usePerformance.ts:67-70 | push-then-shift-beyond-60 keeps exactly the last 60 durations of the whole history |
| Performance.Check | memento-mori-timer/src/hooks/usePerformance.ts:32-58 | a low window adds one to the run and a good one resets it; each flag latches and is set exactly when its threshold (180, 360) is reached |
| Performance.FlagsLatch | memento-mori-timer/src/hooks/usePerformance.ts:36-51 | over any run of checks the flags never clear, the vignette is disabled only with particles reduced, and a count past a threshold has its flag set |
| Performance.ConsecutiveLowChecks | memento-mori-timer/src/hooks/usePerformance.ts:32-51 | k low checks raise the count by k and set each flag once its threshold is reached |
| Performance.DegradationThresholds | memento-mori-timer/src/hooks/usePerformance.ts:36-51 | from a fresh monitor 180 low checks reduce particles without disabling the vignette, and 360 disable it |
| Performance.FewerThanThresholdKeepsVignette | memento-mori-timer/src/hooks/usePerformance.ts:45-51 | fewer than 360 consecutive low checks cannot disable the vignette |
| Performance.FullAfterSixty | memento-mori-timer/src/hooks/usePerformance.ts:67-75 | once 60 frames are seen, the window stays full, so every later frame is checked |
| Performance.PerformanceMonitor.constructor | memento-mori-timer/src/hooks/usePerformance.ts:11-17 | empty window, count 0, both flags off |
| Performance.PerformanceMonitor.CheckPerformance | memento-mori-timer/src/hooks/usePerformance.ts:19-59 | an empty window changes nothing; otherwise the state moves as one `Check` of the window's rate, and the reachable-state invariant is kept |
| Performance.PerformanceMonitor.OnFrame | memento-mori-timer/src/hooks/usePerformance.ts:61-76 | records the frame duration, keeps the last 60 of the whole history, and checks exactly when the window is full |
| AudioEngine.TargetGainBounds | memento-mori-timer/src/audio/AudioManager.ts:206-210 | urgencies in [0, 1] map into [0.01, 0.316], monotonically |
| AudioEngine.CompletionChordShape | memento-mori-timer/src/audio/AudioManager.ts:277-291 | three partials at 440, 880 and 1320 Hz, starting at gain 0.2, each quieter than the one before |
| AudioEngine.AudioManager.constructor | memento-mori-timer/src/audio/AudioManager.ts:2-16 | no context, not initialised, no voices held, no cues |
| AudioEngine.AudioManager.ContextStateName | memento-mori-timer/src/audio/AudioManager.ts:49-51 | the name is "suspended" exactly for a suspended context and "running" exactly for a running one |
| AudioEngine.AudioManager.CreateNode | memento-mori-timer/src/audio/AudioManager.ts:100-110 | a created node gets an id never handed out before; nothing else changes |
| AudioEngine.AudioManager.Init | memento-mori-timer/src/audio/AudioManager.ts:25-47 | a no-op once initialised; otherwise succeeds exactly for a running context or a suspended one that resumes, and the flag equals the result |
| AudioEngine.AudioManager.ResumeAudioContext | memento-mori-timer/src/audio/AudioManager.ts:53-70 | true for a running context or a suspended one that resumes, false without a context; never touches the initialised flag |
| AudioEngine.AudioManager.StopBrownNoise | memento-mori-timer/src/audio/AudioManager.ts:122-142 | every held noise node is released and the chain is empty; idempotent |
| AudioEngine.AudioManager.StartBrownNoise | memento-mori-timer/src/audio/AudioManager.ts:72-120 | when ready: the old chain is released and a fresh source → 500 Hz filter → 0.1 gain chain is held; otherwise a no-op |
| AudioEngine.AudioManager.StopShepardTone | memento-mori-timer/src/audio/AudioManager.ts:219-234 | every drone oscillator and the shared gain are released and the bank is empty, so no old oscillator remains in it; idempotent |
| AudioEngine.AudioManager.StartShepardTone | memento-mori-timer/src/audio/AudioManager.ts:144-179 | when ready: the old bank is released and a fresh 0.01 gain with four fresh oscillators at 110/220/440/880 Hz, each at 0.25, is held, and no oscillator of the old bank remains in it; otherwise a no-op |
| AudioEngine.AudioManager.SweepTimerFired | memento-mori-timer/src/audio/AudioManager.ts:192-198 | the sweep re-arms exactly while the oscillator is still in the bank; `StopShepardTone` and `StartShepardTone` each promise that no oscillator of the old bank is left in it |
| AudioEngine.SweepEndsWithStop | memento-mori-timer/src/audio/AudioManager.ts:192-198 | a sweep timer of a playing oscillator re-arms, and after `stopShepardTone` the same timer does not |
| AudioEngine.SweepEndsWithRestart | memento-mori-timer/src/audio/AudioManager.ts:192-198 | when ready, a sweep timer of the current bank re-arms, and after `startShepardTone` replaces the bank it does not |
| AudioEngine.AudioManager.UpdateShepardVolume | memento-mori-timer/src/audio/AudioManager.ts:201-217 | with a drone and a context the shared gain targets `TargetGain(urgency)`; otherwise nothing changes |
| AudioEngine.AudioManager.PlayClickSound | memento-mori-timer/src/audio/AudioManager.ts:236-269 | when ready, one 80 Hz click at 0.316 decaying over 50 ms is emitted; held voices are untouched |
| AudioEngine.AudioManager.PlayCompletionSound | memento-mori-timer/src/audio/AudioManager.ts:271-307 | when ready, the three chord partials are emitted in order; held voices are untouched |
| AudioEngine.AudioRegistry.constructor | memento-mori-timer/src/audio/AudioManager.ts:2 | no instance yet |
| AudioEngine.AudioRegistry.GetInstance | memento-mori-timer/src/audio/AudioManager.ts:18-23 | creates a fresh engine on first use and returns that same engine ever after |
| AudioEngine.SameInstanceTwice | memento-mori-timer/src/audio/AudioManager.ts:18-23 | two calls return the same engine |
| AudioHook.UrgencyInRange | memento-mori-timer/src/hooks/useAudio.ts:85-93 | inside the last minute the urgency lies in [0, 1) and grows as time runs out, and the drone gain stays in [0.01, 0.316) |
| AudioHook.AudioHook.constructor | memento-mori-timer/src/hooks/useAudio.ts:10-16 | no engine, all refs false, no error, no prompt, support assumed |
| AudioHook.AudioHook.InitAudio | memento-mori-timer/src/hooks/useAudio.ts:21-52 | no support: the "not supported" error and no support; otherwise the ref follows the engine's `init`; a failure sets the "failed" error and asks for interaction exactly when the context is suspended |
| AudioHook.AudioHook.Unmount | memento-mori-timer/src/hooks/useAudio.ts:54-60 | both continuous voices are released |
| AudioHook.AudioHook.BrownNoiseEffect | memento-mori-timer/src/hooks/useAudio.ts:63-76 | with an engine believed initialised, the noise bed is marked active exactly when the timer runs, and it starts or stops on the transitions |
| AudioHook.AudioHook.ShepardEffect | memento-mori-timer/src/hooks/useAudio.ts:78-99 | stopped: nothing changes; running in the last minute: the drone starts once and its gain follows the urgency; running outside it: an active drone stops |
| AudioHook.AudioHook.PlayClickSound | memento-mori-timer/src/hooks/useAudio.ts:101-116 | with an engine believed initialised, a suspended context is resumed first, then a click is asked for |
| AudioHook.AudioHook.PlayCompletionSound | memento-mori-timer/src/hooks/useAudio.ts:118-123 | the chord is asked for only with an engine believed initialised |
| AudioHook.AudioHook.EnableAudio | memento-mori-timer/src/hooks/useAudio.ts:125-140 | a successful resume clears the prompt and the error and sets the ref; the engine's own flag is unchanged |
| AudioHook.EnableAfterBlockedStart | memento-mori-timer/src/hooks/useAudio.ts:125-140 | after an autoplay-blocked start and a successful enable, the hook believes audio works while the engine holds no noise bed and emits no click |
| Zalgo.MarksInCombiningBlock | memento-mori-timer/src/utils/zalgoText.ts:7-55 | every mark of the three tables lies in U+0300–U+036F |
| Zalgo.MarksAreMarked | memento-mori-timer/src/utils/zalgoText.ts:80 | no mark is whitespace or a colon |
| Zalgo.Clamp | memento-mori-timer/src/utils/zalgoText.ts:65 | the intensity is clamped into [0, 1] |
| Zalgo.MarksPerChar | memento-mori-timer/src/utils/zalgoText.ts:74 | between 1 and 6 slots; 1 exactly below 0.2, 6 exactly at 1 |
| Zalgo.Scaled | memento-mori-timer/src/utils/zalgoText.ts:87 | a scaled draw is below its bound |
| Zalgo.Pick | memento-mori-timer/src/utils/zalgoText.ts:89-90 | a drawn mark comes from its table |
| Zalgo.MarkRun | memento-mori-timer/src/utils/zalgoText.ts:88-92 | `count` draws give `count` marks, all from the table |
| Zalgo.DecorateChar | memento-mori-timer/src/utils/zalgoText.ts:78-110 | fewer above and below marks than slots, at most one middle mark, each from its table; whitespace and ':' come back bare; no middle mark at 0.5 or below |
| Zalgo.AppendMarks | memento-mori-timer/src/utils/zalgoText.ts:88-92 | the counted loop appends exactly `MarkRun`'s marks and advances the cursor by the count |
| Zalgo.AppendMiddle | memento-mori-timer/src/utils/zalgoText.ts:103-107 | the middle step appends `MiddleMark`'s mark, if any |
| Zalgo.AppendAllMarks | memento-mori-timer/src/utils/zalgoText.ts:84-109 | the two loops and the middle step produce the specified decoration |
| Zalgo.DecorateCharacter | memento-mori-timer/src/utils/zalgoText.ts:78-110 | the per-character body produces `DecorateChar`'s rendering and cursor |
| Zalgo.DecorateAllStrip | memento-mori-timer/src/utils/zalgoText.ts:76-111 | removing the marks from the pipeline's output gives back a mark-free input |
| Zalgo.ZalgoStripRoundTrip | memento-mori-timer/src/utils/zalgoText.ts:63-112 | at every intensity, removing the marks from the output recovers a mark-free input |
| Zalgo.DecorateAllCount | memento-mori-timer/src/utils/zalgoText.ts:76-111 | every character that is not a mark occurs in the output as often as in the input |
| Zalgo.ColonsPreserved | memento-mori-timer/src/utils/zalgoText.test.ts:37-43 | the output has as many colons as the input |
| Zalgo.SingleSlotIdentity | memento-mori-timer/src/utils/zalgoText.ts:84-107 | with one slot and intensity at most 0.5 no mark is added |
| Zalgo.LowIntensityIdentity | memento-mori-timer/src/utils/zalgoText.test.ts:5-15 | every intensity below 0.2, negatives included, leaves the text unchanged |
| Zalgo.MediumIntensityMayAddNothing | memento-mori-timer/src/utils/zalgoText.test.ts:17-27 | at 0.5 a stream of zeros leaves "25:00" unchanged, so the test's "longer" expectation is not guaranteed |
| TimerDisplay.ZalgoIntensity | memento-mori-timer/src/components/TimerDisplay.tsx:19-21 | 0 when off; in (0, 1] for scores in (50, 100]; 1 from 100 on; never above 1 |
| TimerDisplay.CleanWhenOff | memento-mori-timer/src/components/TimerDisplay.tsx:23-25 | with distortion off the visible text is the clean MM:SS and nothing is drawn |
| TimerDisplay.CleanUpTo59 | memento-mori-timer/src/components/TimerDisplay.tsx:19-25 | scores up to 59 show the clean text even with distortion on |
| TimerDisplay.FormatTimeUnmarked | memento-mori-timer/src/utils/formatTime.ts:17-20 | the formatter writes only digits and ':' and never a mark |
| TimerDisplay.StripGivesScreenReaderText | memento-mori-timer/src/components/TimerDisplay.tsx:15-51 | removing the marks from the visible text gives exactly the screen-reader text |
| TimerDisplay.OneColon | memento-mori-timer/src/components/TimerDisplay.tsx:15-25 | the visible text holds exactly one colon at every score |
| TimeSettings.AcceptedMinutes | memento-mori-timer/src/components/TimeSettings.tsx:30-31 | a submit is accepted exactly when the field parses to a number in 1..999, and then asks for that number |
| TimeSettings.CurrentMinutes | memento-mori-timer/src/components/TimeSettings.tsx:38 | the session length rounded up to whole minutes |
| TimeSettings.CustomRoundTrip | memento-mori-timer/src/components/TimeSettings.tsx:28-36 | every minute count 1..999 typed as digits is accepted as itself with the button enabled |
| TimeSettings.AcceptedIsEnabled | memento-mori-timer/src/components/TimeSettings.tsx:225 | an accepted value never comes with a disabled button |
| TimeSettings.NonNumericRefused | memento-mori-timer/src/components/TimeSettings.tsx:225 | the handler's guard alone: for a field holding "abc" the button's condition leaves it enabled and the handler asks for nothing (a number input never holds such text) |
| TimeSettings.ThousandRefused | memento-mori-timer/src/components/TimeSettings.tsx:28-36 | the handler's guard alone: "1000" leaves the button enabled and the handler asks for nothing; in the browser the input's `max` blocks that submit first |
| TimeSettings.NonPositiveDisabled | memento-mori-timer/src/components/TimeSettings.tsx:225 | the empty field, "0" and "-5" disable the button |
| TimeSettings.LeadingDigitsParsed | memento-mori-timer/src/components/TimeSettings.tsx:30-31 | the handler's parse alone: only leading digits count, so "25min" would ask for 25 (a number input never holds such text) |
| TimeSettings.SettingsPanel.constructor | memento-mori-timer/src/components/TimeSettings.tsx:9-10 | closed, with an empty field |
| TimeSettings.SettingsPanel.ToggleOpen | memento-mori-timer/src/components/TimeSettings.tsx:50-52 | flips the panel unless the timer runs |
| TimeSettings.SettingsPanel.Close | memento-mori-timer/src/components/TimeSettings.tsx:98 | closes the panel and keeps the field |
| TimeSettings.SettingsPanel.EditInput | memento-mori-timer/src/components/TimeSettings.tsx:204 | the field holds what was typed |
| TimeSettings.SettingsPanel.HandlePresetClick | memento-mori-timer/src/components/TimeSettings.tsx:23-26 | asks for the preset's minutes and closes the panel |
| TimeSettings.SettingsPanel.HandleCustomSubmit | memento-mori-timer/src/components/TimeSettings.tsx:28-36 | asks for `AcceptedMinutes` of the field; when accepted, clears the field and closes the panel, otherwise changes nothing |
| App.ButtonsClickFirst | memento-mori-timer/src/App.tsx:66-79 | start, pause and reset each click once before acting and move the store as their action does |
| App.KeyDownClicksFirst | memento-mori-timer/src/App.tsx:101-125 | a key press makes calls exactly for Space or R outside text fields, at most one click, each action straight after its click, and suppresses the default exactly then |
| App.TypingIgnored | memento-mori-timer/src/App.tsx:103-108 | keys typed in an input or text area change nothing and keep their default |
| App.SpaceToggles | memento-mori-timer/src/App.tsx:111-118 | Space flips the running flag, clicks once, and changes nothing else |
| App.KeyRResets | memento-mori-timer/src/App.tsx:121-124 | R resets the store with one click, running or not |
| App.ContextLossStops | memento-mori-timer/src/App.tsx:82-86 | context loss leaves the timer stopped, plays no click, and calls nothing when already stopped |
| App.VignetteShownAbove80 | memento-mori-timer/src/App.tsx:97 | the vignette shows exactly above a score of 80 while the monitor allows it |
| App.VignetteOffOnceDisabled | memento-mori-timer/src/App.tsx:88-97 | once the monitor disables the vignette, no later checks and no score bring it back |
| App.BottomOverlaysExclusive | memento-mori-timer/src/App.tsx:165-195 | the hints bar never shows with the audio prompt or the visual-only notice |
| App.AudioOverlays | memento-mori-timer/src/App.tsx:165-195 | no support shows the notice; a blocked start shows the prompt; a failed start in a supporting browser shows none of the three; success shows the bar |

## Left out

- The brown-noise sample loop (memento-mori-timer/src/audio/AudioManager.ts:81-97): floating-point signal generation from `Math.random`. The model holds the source node without its buffer.
- Web Audio scheduling (`setValueAtTime`, the exponential and linear ramps, `start`/`stop` times, the `setTimeout` disconnects of one-shot cues). Nodes are handles; a ramp is modelled as its target value.
- AudioEngine.AudioManager.StartShepardTone: the 10-second octave sweep is not modelled as a frequency change. Only its re-arm condition (`SweepTimerFired`) is.
- The custom-minutes field is a browser number input (memento-mori-timer/src/components/TimeSettings.tsx:199-204). In the browser it yields only "" or a valid number, and the form checks `min`, `max` and `step` before the submit handler runs. The model lets the field hold any string and models the handler's own guard, so inputs such as "abc", "25min" and "1000" reach it.
- The `async`/`Promise` timing of `init`, `resumeAudioContext`, the click handler and `enableAudio`. Their outcomes are inputs and each call completes before the next. The "Failed to enable audio" branch needs `resumeAudioContext` to throw, which it never does.
- The `onButtonClick` option of the audio hook, which no caller passes.
- Context states other than suspended and running (a closed context).
- `setCustomTime`: the store it is read from does not define it. The settings handlers return the minutes they would pass to it.
- `parseInt` details beyond an optional sign and leading decimal digits: leading whitespace, and prefixes such as "0x".
- Fractional seconds in `formatTime`. Times are whole seconds and the store only ever holds whole seconds.
- Strings are sequences of code points. UTF-16 surrogate pairs in `split("")` are not modelled.
- The frame-rate monitor's `currentFPS` value (`Math.round`), its console messages, and the stale flag values its memoised callback sees. The model reads the current flags; the guarded setters make the visible effect the same.
- The welcome modal and its `localStorage` flag, which are I/O. `useGlitch`, `useWebGLContext`, the 3D scene and the presentational components (`ControlButtons`, `UIOverlay`, `InfoBar`, `HelpButton`, `SessionIndicator`, `VignetteOverlay`, `WelcomeModal`) are not part of this model.
- React and zustand mechanics:
  - subscriptions and re-renders;
  - effect scheduling;
  - `requestAnimationFrame`/`cancelAnimationFrame`, which the countdown's `rearm` result stands for;
  - the timer's `setTimeout` delay, which `GraceTimeout` stands for.
- JavaScript numbers are modelled as mathematical integers and reals. No floating-point rounding is modelled.
