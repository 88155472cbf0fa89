/**
 * The audio hook: obtains the engine, initialises it once, and keeps the
 * noise bed and the drone in step with the timer through its refs
 * (`isInitialized`, `brownNoiseActive`, `shepardToneActive`) and its state
 * (`audioError`, `needsUserInteraction`, `hasAudioSupport`).
 */
module AudioHook {
  import opened Wrappers
  import opened AudioEngine

  const UnsupportedMessage: string := "Audio not supported in this browser"
  const InitFailedMessage: string := "Failed to initialize audio"

  /** The drone's urgency: 0 with 60 s left, rising towards 1 as the countdown runs out. */
  function Urgency(timeRemaining: int): real {
    1.0 - timeRemaining as real / 60.0
  }

  /**
   * In the drone window (0 < remaining <= 60) the urgency lies in [0, 1), grows
   * as time runs out, and the drone's gain stays within [0.01, 0.316).
   */
  lemma UrgencyInRange(t: int, u: int)
    requires 0 < u <= t <= 60
    ensures 0.0 <= Urgency(t) <= Urgency(u) < 1.0
    ensures ShepardMinGain <= TargetGain(Urgency(t)) < ShepardMaxGain
  {
    assert t as real / 60.0 <= 1.0;
    assert u as real / 60.0 <= t as real / 60.0;
    assert u as real / 60.0 > 0.0;
    TargetGainBounds(Urgency(t), Urgency(u));
    assert Urgency(u) * 0.306 < 0.306;
  }

  /** The drone plays while 0 < remaining <= 60. */
  predicate InDroneWindow(timeRemaining: int) {
    0 < timeRemaining <= 60
  }

  class AudioHook {
    var manager: AudioManager?
    var isInitialized: bool
    var shepardToneActive: bool
    var brownNoiseActive: bool
    var audioError: Option<string>
    var needsUserInteraction: bool
    var hasAudioSupport: bool

    ghost predicate Valid()
      reads this, manager
    {
      manager != null ==> manager.Valid()
    }

    constructor ()
      ensures Valid() && manager == null
      ensures !isInitialized && !shepardToneActive && !brownNoiseActive
      ensures audioError == None && !needsUserInteraction && hasAudioSupport
    {
      manager := null;
      isInitialized, shepardToneActive, brownNoiseActive := false, false, false;
      audioError, needsUserInteraction, hasAudioSupport := None, false, true;
    }

    /**
     * The mount effect. `supported` is the platform's answer to "is there a Web
     * Audio API"; `outcome` is what creating and resuming the context does.
     */
    method InitAudio(registry: AudioRegistry, supported: bool, outcome: InitOutcome)
      requires Valid()
      requires registry.instance != null ==> registry.instance.Valid()
      modifies this, registry, registry.instance
      ensures Valid() && manager != null && manager == registry.instance
      ensures old(registry.instance) != null ==> manager == old(registry.instance)
      ensures shepardToneActive == old(shepardToneActive) && brownNoiseActive == old(brownNoiseActive)
      ensures !supported ==>
                && !hasAudioSupport && audioError == Some(UnsupportedMessage)
                && isInitialized == old(isInitialized) && needsUserInteraction == old(needsUserInteraction)
      ensures supported ==> hasAudioSupport == old(hasAudioSupport) && isInitialized == manager.isInitialized
      ensures supported && isInitialized ==> audioError == None && needsUserInteraction == old(needsUserInteraction)
      ensures supported && !isInitialized ==>
                && audioError == Some(InitFailedMessage)
                && needsUserInteraction == (old(needsUserInteraction) || manager.context == Suspended)
      ensures supported && (old(registry.instance) == null || !old(registry.instance.isInitialized)) ==>
                (isInitialized <==> outcome == CreatedRunning || outcome == CreatedSuspended(true))
      ensures supported && old(registry.instance) == null && outcome == CreatedSuspended(false) ==>
                needsUserInteraction && !isInitialized && manager.context == Suspended
      ensures old(registry.instance) == null ==> fresh(manager) && manager.NoiseSilent() && manager.cues == []
    {
      var m := registry.GetInstance();
      manager := m;
      if !supported {
        hasAudioSupport := false;
        audioError := Some(UnsupportedMessage);
        return;
      }
      var ok := m.Init(outcome);
      if ok {
        isInitialized := true;
        audioError := None;
      } else {
        audioError := Some(InitFailedMessage);
        isInitialized := false;
        if m.ContextStateName() == "suspended" {
          needsUserInteraction := true;
        }
      }
    }

    /** The noise-bed effect: afterwards the bed is marked active exactly when the timer runs. */
    method BrownNoiseEffect(isRunning: bool)
      requires Valid()
      modifies this, manager
      ensures Valid() && manager == old(manager)
      ensures isInitialized == old(isInitialized) && shepardToneActive == old(shepardToneActive)
      ensures audioError == old(audioError) && needsUserInteraction == old(needsUserInteraction)
      ensures hasAudioSupport == old(hasAudioSupport)
      ensures manager == null || !isInitialized ==> brownNoiseActive == old(brownNoiseActive)
      ensures manager != null && isInitialized ==> brownNoiseActive == isRunning
      ensures manager != null && isInitialized && isRunning && !old(brownNoiseActive) && old(manager.Ready()) ==>
                manager.NoisePlaying()
      ensures manager != null && isInitialized && !isRunning && old(brownNoiseActive) ==>
                manager.NoiseSilent()
      ensures manager != null && (!isInitialized || isRunning == old(brownNoiseActive)) ==> unchanged(manager)
      ensures manager != null && isRunning && !old(manager.Ready()) ==> manager.NoiseSilent() == old(manager.NoiseSilent())
      ensures manager != null ==> manager.isInitialized == old(manager.isInitialized) && manager.context == old(manager.context)
      ensures manager != null ==> manager.shepardOscillators == old(manager.shepardOscillators)
                                  && manager.shepardGain == old(manager.shepardGain) && manager.cues == old(manager.cues)
    {
      if manager == null || !isInitialized {
        return;
      }
      if isRunning && !brownNoiseActive {
        manager.StartBrownNoise();
        brownNoiseActive := true;
      } else if !isRunning && brownNoiseActive {
        manager.StopBrownNoise();
        brownNoiseActive := false;
      }
    }

    /**
     * The drone effect. Stopped or uninitialised: nothing happens, so a pause
     * leaves the drone playing. Running inside the window: start once, then set
     * the volume from the urgency. Running outside it: stop an active drone.
     */
    method ShepardEffect(timeRemaining: int, isRunning: bool)
      requires Valid()
      modifies this, manager
      ensures Valid() && manager == old(manager)
      ensures isInitialized == old(isInitialized) && brownNoiseActive == old(brownNoiseActive)
      ensures audioError == old(audioError) && needsUserInteraction == old(needsUserInteraction)
      ensures hasAudioSupport == old(hasAudioSupport)
      ensures manager == null || !isInitialized || !isRunning ==>
                shepardToneActive == old(shepardToneActive) && (manager != null ==> unchanged(manager))
      ensures manager != null && isInitialized && isRunning ==>
                shepardToneActive == InDroneWindow(timeRemaining)
      ensures manager != null && isInitialized && isRunning && InDroneWindow(timeRemaining) ==>
                && (!old(shepardToneActive) && old(manager.Ready()) ==> manager.shepardGain.Some? && IsShepardBank(manager.shepardOscillators))
                && (manager.shepardGain.Some? && manager.context != NotCreated ==>
                      manager.shepardGain.value.value == TargetGain(Urgency(timeRemaining)))
      ensures manager != null && isInitialized && isRunning && !InDroneWindow(timeRemaining) && old(shepardToneActive) ==>
                manager.shepardOscillators == [] && manager.shepardGain.None?
      ensures manager != null ==> manager.NoisePlaying() == old(manager.NoisePlaying()) && manager.cues == old(manager.cues)
    {
      if manager == null || !isInitialized || !isRunning {
        return;
      }
      if timeRemaining <= 60 && timeRemaining > 0 {
        if !shepardToneActive {
          manager.StartShepardTone();
          shepardToneActive := true;
        }
        var urgency := Urgency(timeRemaining);
        manager.UpdateShepardVolume(urgency);
      } else if shepardToneActive {
        manager.StopShepardTone();
        shepardToneActive := false;
      }
    }

    /**
     * The click handler: with an engine that the hook believes initialised,
     * resume a suspended context first, then ask for the click.
     */
    method PlayClickSound(resumeSucceeds: bool)
      requires Valid()
      modifies this, manager
      ensures Valid() && manager == old(manager)
      ensures shepardToneActive == old(shepardToneActive) && brownNoiseActive == old(brownNoiseActive)
      ensures audioError == old(audioError) && hasAudioSupport == old(hasAudioSupport)
      ensures isInitialized == old(isInitialized)
      ensures manager == null || !isInitialized ==>
                needsUserInteraction == old(needsUserInteraction) && (manager != null ==> unchanged(manager))
      ensures manager != null && isInitialized ==>
                && manager.cues == (if manager.Ready() then old(manager.cues) + [ClickCue] else old(manager.cues))
                && manager.isInitialized == old(manager.isInitialized)
                && (old(manager.context) == Suspended && resumeSucceeds ==> manager.context == Running && !needsUserInteraction)
      ensures manager != null ==> manager.NoisePlaying() == old(manager.NoisePlaying())
                                  && manager.shepardOscillators == old(manager.shepardOscillators)
    {
      if manager != null && isInitialized {
        if manager.ContextStateName() == "suspended" {
          var resumed := manager.ResumeAudioContext(resumeSucceeds);
          if resumed {
            needsUserInteraction := false;
            isInitialized := true;
          }
        }
        manager.PlayClickSound();
      }
    }

    /** The completion handler: the chord is asked for only with an engine the hook believes initialised. */
    method PlayCompletionSound()
      requires Valid()
      modifies manager
      ensures Valid()
      ensures manager != null && isInitialized ==>
                manager.cues == (if old(manager.Ready()) then old(manager.cues) + CompletionChord() else old(manager.cues))
      ensures manager != null && !isInitialized ==> unchanged(manager)
      ensures manager != null ==> manager.NoisePlaying() == old(manager.NoisePlaying())
                                  && manager.shepardOscillators == old(manager.shepardOscillators)
    {
      if manager != null && isInitialized {
        manager.PlayCompletionSound();
      }
    }

    /** The "click to enable audio" handler: a successful resume clears the prompt and the error. */
    method EnableAudio(resumeSucceeds: bool)
      requires Valid()
      modifies this, manager
      ensures Valid() && manager == old(manager)
      ensures shepardToneActive == old(shepardToneActive) && brownNoiseActive == old(brownNoiseActive)
      ensures hasAudioSupport == old(hasAudioSupport)
      ensures manager == null ==> isInitialized == old(isInitialized) && audioError == old(audioError)
                                  && needsUserInteraction == old(needsUserInteraction)
      ensures manager != null ==>
                var resumed := old(manager.context) == Running || (old(manager.context) == Suspended && resumeSucceeds);
                && (resumed ==> isInitialized && !needsUserInteraction && audioError == None)
                && (!resumed ==> isInitialized == old(isInitialized) && audioError == old(audioError)
                                 && needsUserInteraction == old(needsUserInteraction))
                && manager.isInitialized == old(manager.isInitialized)
                && manager.NoiseSilent() == old(manager.NoiseSilent()) && manager.cues == old(manager.cues)
    {
      if manager == null {
        return;
      }
      var resumed := manager.ResumeAudioContext(resumeSucceeds);
      if resumed {
        needsUserInteraction := false;
        isInitialized := true;
        audioError := None;
      }
    }

    /** The unmount cleanup: both continuous voices are released. */
    method Unmount()
      requires Valid()
      modifies manager
      ensures Valid()
      ensures manager != null ==> manager.NoiseSilent() && manager.shepardOscillators == [] && manager.shepardGain.None?
    {
      if manager != null {
        manager.StopBrownNoise();
        manager.StopShepardTone();
      }
    }
  }

  /**
   * Autoplay blocked at start-up, then the user enables audio: the hook now
   * believes audio is initialised, but the engine's own flag is still false,
   * so starting the timer holds no noise bed and a click emits nothing.
   */
  method EnableAfterBlockedStart() returns (hookInitialized: bool, engineInitialized: bool, noiseHeld: bool, clicks: nat)
    ensures hookInitialized && !engineInitialized && !noiseHeld && clicks == 0
  {
    var registry := new AudioRegistry();
    var hook := new AudioHook();
    hook.InitAudio(registry, true, CreatedSuspended(false));
    hook.EnableAudio(true);
    hook.BrownNoiseEffect(true);
    hook.PlayClickSound(true);
    var engine := hook.manager;
    hookInitialized := hook.isInitialized;
    engineInitialized := engine.isInitialized;
    noiseHeld := engine.NoisePlaying();
    clicks := |engine.cues|;
  }
}
