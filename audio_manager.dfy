/**
 * The audio engine's voice bookkeeping. Web Audio nodes are opaque handles
 * (a fresh id plus the one parameter the engine sets on them); what the
 * engine holds, what it has stopped and disconnected, and which one-shot
 * cues it has emitted are fields of the manager. The platform's answers
 * (can a context be created, does `resume` succeed) are inputs.
 */
module AudioEngine {
  import opened Wrappers

  /** The platform audio context as far as the engine can observe it. */
  datatype ContextState = NotCreated | Suspended | Running

  /** What happens when `init` asks the platform for a context. */
  datatype InitOutcome =
    | CreateFails                                   // the constructor throws
    | CreatedRunning                                // a running context
    | CreatedSuspended(resumeSucceeds: bool)        // suspended; `resume` resolves or rejects

  /** An audio node handle with the one parameter the engine sets on it (frequency or gain). */
  datatype Node = Node(id: nat, value: real)

  /** One voice of the drone: its oscillator, base frequency and individual gain stage. */
  datatype Oscillator = Oscillator(id: nat, baseFrequency: real, gainId: nat, subGain: real)

  /** A fire-and-forget sound: a sine partial with its starting gain and decay time. */
  datatype Cue = Cue(frequency: real, initialGain: real, decaySeconds: real)

  const NoiseFilterHz: real := 500.0
  const NoiseGain: real := 0.1
  const ShepardBaseFrequencies: seq<real> := [110.0, 220.0, 440.0, 880.0]
  const ShepardSubGain: real := 0.25
  const ShepardMinGain: real := 0.01
  const ShepardMaxGain: real := 0.316
  const ClickCue: Cue := Cue(80.0, 0.316, 0.05)
  const ChordFrequencies: seq<real> := [440.0, 880.0, 1320.0]
  const ChordDecaySeconds: real := 1.5

  /** The drone's shared gain for an urgency: linear from 0.01 at 0 to 0.316 at 1. */
  function TargetGain(urgency: real): real {
    ShepardMinGain + urgency * (ShepardMaxGain - ShepardMinGain)
  }

  /** Urgencies in [0, 1] land in [0.01, 0.316], and more urgency is never quieter. */
  lemma TargetGainBounds(u: real, v: real)
    requires 0.0 <= u <= v <= 1.0
    ensures ShepardMinGain <= TargetGain(u) <= TargetGain(v) <= ShepardMaxGain
  {
    assert u * 0.306 <= v * 0.306;
  }

  /** Starting gain of the completion chord's partial number `index`. */
  function ChordGain(index: nat): real {
    0.2 / (index + 1) as real
  }

  /** The three partials of the completion chord, in creation order. */
  function CompletionChord(): seq<Cue> {
    seq(|ChordFrequencies|, i requires 0 <= i < |ChordFrequencies| => Cue(ChordFrequencies[i], ChordGain(i), ChordDecaySeconds))
  }

  /** The chord is the fundamental 440 Hz and its harmonics, each partial quieter than the one before. */
  lemma CompletionChordShape()
    ensures |CompletionChord()| == 3
    ensures forall i :: 0 <= i < 3 ==> CompletionChord()[i].frequency == 440.0 * (i + 1) as real
    ensures forall i, j :: 0 <= i < j < 3 ==> CompletionChord()[j].initialGain < CompletionChord()[i].initialGain
    ensures CompletionChord()[0].initialGain == 0.2
  {
    assert ChordGain(0) == 0.2;
    assert ChordGain(1) == 0.1;
    assert ChordGain(2) < 0.1;
  }

  /** The drone bank: one oscillator per base frequency, in order, each at sub-gain 0.25. */
  ghost predicate IsShepardBank(oscillators: seq<Oscillator>) {
    && |oscillators| == |ShepardBaseFrequencies|
    && forall i :: 0 <= i < |oscillators| ==>
         oscillators[i].baseFrequency == ShepardBaseFrequencies[i] && oscillators[i].subGain == ShepardSubGain
  }

  function NodeIds(n: Option<Node>): set<nat> {
    if n.Some? then {n.value.id} else {}
  }

  function OscillatorIds(oscillators: seq<Oscillator>): set<nat> {
    set i | 0 <= i < |oscillators| :: oscillators[i].id
  }

  lemma OscillatorIdsAppend(oscillators: seq<Oscillator>, o: Oscillator)
    ensures OscillatorIds(oscillators + [o]) == OscillatorIds(oscillators) + {o.id}
  {
    var extended := oscillators + [o];
    assert extended[|oscillators|] == o;
    forall id | id in OscillatorIds(oscillators)
      ensures id in OscillatorIds(extended)
    {
      var i :| 0 <= i < |oscillators| && oscillators[i].id == id;
      assert extended[i] == oscillators[i];
    }
  }

  class AudioManager {
    var context: ContextState
    var isInitialized: bool
    var brownNoiseSource: Option<Node>
    var brownNoiseFilter: Option<Node>
    var brownNoiseGain: Option<Node>
    var shepardOscillators: seq<Oscillator>
    var shepardGain: Option<Node>
    /** Handle allocator: every node created gets an id not used before. */
    var nextId: nat
    /** Ids of the nodes the engine has stopped or disconnected. */
    var released: set<nat>
    /** One-shot sounds emitted so far, in order. */
    var cues: seq<Cue>

    /** A node id already handed out by the allocator. */
    predicate Allocated(id: nat)
      reads this
    {
      id < nextId
    }

    predicate AllocatedNode(n: Option<Node>)
      reads this
    {
      n.Some? ==> Allocated(n.value.id)
    }

    /** The brown-noise voice is held as a whole chain or not at all. */
    predicate NoisePlaying()
      reads this
    {
      brownNoiseSource.Some? && brownNoiseFilter.Some? && brownNoiseGain.Some?
    }

    predicate NoiseSilent()
      reads this
    {
      brownNoiseSource.None? && brownNoiseFilter.None? && brownNoiseGain.None?
    }

    ghost predicate Valid()
      reads this
    {
      && (isInitialized ==> context != NotCreated)
      && (NoisePlaying() || NoiseSilent())
      && (NoisePlaying() ==>
            brownNoiseFilter.value.value == NoiseFilterHz && brownNoiseGain.value.value == NoiseGain)
      && (shepardGain.None? ==> shepardOscillators == [])
      && (shepardGain.Some? ==> IsShepardBank(shepardOscillators))
      && (forall id :: id in released ==> id < nextId)
      && AllocatedNode(brownNoiseSource) && AllocatedNode(brownNoiseFilter) && AllocatedNode(brownNoiseGain)
      && AllocatedNode(shepardGain)
      && (forall i :: 0 <= i < |shepardOscillators| ==> Allocated(shepardOscillators[i].id))
    }

    /** Whether the sound triggers do anything: a context exists and `init` succeeded. */
    predicate Ready()
      reads this
    {
      context != NotCreated && isInitialized
    }

    constructor ()
      ensures Valid()
      ensures context == NotCreated && !isInitialized
      ensures NoiseSilent() && shepardOscillators == [] && shepardGain.None?
      ensures nextId == 0 && released == {} && cues == []
    {
      context, isInitialized := NotCreated, false;
      brownNoiseSource, brownNoiseFilter, brownNoiseGain := None, None, None;
      shepardOscillators, shepardGain := [], None;
      nextId, released, cues := 0, {}, [];
    }

    /** `getAudioContextState`. */
    function ContextStateName(): (name: string)
      reads this
      ensures name == "suspended" <==> context == Suspended
      ensures name == "running" <==> context == Running
    {
      match context
      case NotCreated => "not-initialized"
      case Suspended => "suspended"
      case Running => "running"
    }

    /** Creates an audio node with a fresh id. */
    method CreateNode(value: real) returns (n: Node)
      requires Valid()
      modifies this
      ensures Valid()
      ensures n == Node(old(nextId), value) && nextId == old(nextId) + 1
      ensures context == old(context) && isInitialized == old(isInitialized)
      ensures brownNoiseSource == old(brownNoiseSource) && brownNoiseFilter == old(brownNoiseFilter)
      ensures brownNoiseGain == old(brownNoiseGain)
      ensures shepardOscillators == old(shepardOscillators) && shepardGain == old(shepardGain)
      ensures released == old(released) && cues == old(cues)
    {
      n := Node(nextId, value);
      nextId := nextId + 1;
    }

    /**
     * `init`: a no-op once initialised; otherwise obtains a context and resumes it
     * if suspended. Returns false where the source throws; the flag then stays false.
     */
    method Init(outcome: InitOutcome) returns (ok: bool)
      requires Valid()
      modifies this
      ensures Valid()
      ensures old(isInitialized) ==> ok && context == old(context) && isInitialized
      ensures !old(isInitialized) ==> match outcome
                case CreateFails => !ok && context == old(context)
                case CreatedRunning => ok && context == Running
                case CreatedSuspended(resumed) => ok == resumed && context == (if resumed then Running else Suspended)
      ensures isInitialized == ok
      ensures brownNoiseSource == old(brownNoiseSource) && brownNoiseFilter == old(brownNoiseFilter)
      ensures brownNoiseGain == old(brownNoiseGain)
      ensures shepardOscillators == old(shepardOscillators) && shepardGain == old(shepardGain)
      ensures nextId == old(nextId) && released == old(released) && cues == old(cues)
    {
      if isInitialized {
        return true;
      }
      match outcome
      case CreateFails =>
        isInitialized := false;
        ok := false;
      case CreatedRunning =>
        context := Running;
        isInitialized := true;
        ok := true;
      case CreatedSuspended(resumed) =>
        context := Suspended;
        if resumed {
          context := Running;
          isInitialized := true;
          ok := true;
        } else {
          isInitialized := false;
          ok := false;
        }
    }

    /**
     * `resumeAudioContext`: false without a context or when `resume` rejects.
     * The initialised flag is not touched.
     */
    method ResumeAudioContext(resumeSucceeds: bool) returns (ok: bool)
      requires Valid()
      modifies this
      ensures Valid()
      ensures ok == (old(context) == Running || (old(context) == Suspended && resumeSucceeds))
      ensures context == (if old(context) == Suspended && resumeSucceeds then Running else old(context))
      ensures isInitialized == old(isInitialized)
      ensures brownNoiseSource == old(brownNoiseSource) && brownNoiseFilter == old(brownNoiseFilter)
      ensures brownNoiseGain == old(brownNoiseGain)
      ensures shepardOscillators == old(shepardOscillators) && shepardGain == old(shepardGain)
      ensures nextId == old(nextId) && released == old(released) && cues == old(cues)
    {
      if context == NotCreated {
        return false;
      }
      if context == Suspended {
        if resumeSucceeds {
          context := Running;
          ok := true;
        } else {
          ok := false;
        }
      } else {
        ok := true;
      }
    }

    /** Stops and disconnects the brown-noise chain, whatever part of it is held. Idempotent. */
    method StopBrownNoise()
      requires Valid()
      modifies this
      ensures Valid()
      ensures NoiseSilent()
      ensures released == old(released + NodeIds(brownNoiseSource) + NodeIds(brownNoiseFilter) + NodeIds(brownNoiseGain))
      ensures old(NoiseSilent()) ==> released == old(released)
      ensures context == old(context) && isInitialized == old(isInitialized)
      ensures shepardOscillators == old(shepardOscillators) && shepardGain == old(shepardGain)
      ensures nextId == old(nextId) && cues == old(cues)
    {
      if brownNoiseSource.Some? {
        released := released + {brownNoiseSource.value.id};
        brownNoiseSource := None;
      }
      if brownNoiseFilter.Some? {
        released := released + {brownNoiseFilter.value.id};
        brownNoiseFilter := None;
      }
      if brownNoiseGain.Some? {
        released := released + {brownNoiseGain.value.id};
        brownNoiseGain := None;
      }
    }

    /**
     * Starts the noise bed: the previous chain is released first, then a fresh
     * source -> low-pass(500 Hz) -> gain(0.1) chain is held. A no-op when not ready.
     */
    method StartBrownNoise()
      requires Valid()
      modifies this
      ensures Valid()
      ensures !old(Ready()) ==> NoiseSilent() == old(NoiseSilent()) && brownNoiseSource == old(brownNoiseSource)
                                && brownNoiseFilter == old(brownNoiseFilter) && brownNoiseGain == old(brownNoiseGain)
                                && released == old(released) && nextId == old(nextId)
      ensures old(Ready()) ==>
                && NoisePlaying()
                && brownNoiseSource.value.id >= old(nextId)
                && brownNoiseFilter.value == Node(brownNoiseFilter.value.id, NoiseFilterHz) && brownNoiseFilter.value.id >= old(nextId)
                && brownNoiseGain.value == Node(brownNoiseGain.value.id, NoiseGain) && brownNoiseGain.value.id >= old(nextId)
                && released == old(released + NodeIds(brownNoiseSource) + NodeIds(brownNoiseFilter) + NodeIds(brownNoiseGain))
      ensures context == old(context) && isInitialized == old(isInitialized)
      ensures shepardOscillators == old(shepardOscillators) && shepardGain == old(shepardGain)
      ensures cues == old(cues)
    {
      if context == NotCreated || !isInitialized {
        return;
      }
      StopBrownNoise();
      // The 2-second random-walk buffer is not modelled; the source node plays it.
      var source := CreateNode(0.0);
      var filter := CreateNode(NoiseFilterHz);
      var gain := CreateNode(NoiseGain);
      brownNoiseSource, brownNoiseFilter, brownNoiseGain := Some(source), Some(filter), Some(gain);
    }

    /** Stops and disconnects every drone oscillator and the shared gain. Idempotent. */
    method StopShepardTone()
      requires Valid()
      modifies this
      ensures Valid()
      ensures shepardOscillators == [] && shepardGain.None?
      ensures forall o :: o in old(shepardOscillators) ==> o !in shepardOscillators
      ensures released == old(released + OscillatorIds(shepardOscillators) + NodeIds(shepardGain))
      ensures old(shepardGain.None?) ==> released == old(released)
      ensures context == old(context) && isInitialized == old(isInitialized)
      ensures brownNoiseSource == old(brownNoiseSource) && brownNoiseFilter == old(brownNoiseFilter)
      ensures brownNoiseGain == old(brownNoiseGain)
      ensures nextId == old(nextId) && cues == old(cues)
    {
      var oscillators := shepardOscillators;
      var stopped := released;
      for i := 0 to |oscillators|
        invariant stopped == released + OscillatorIds(oscillators[..i])
        modifies {}
      {
        assert oscillators[..i + 1] == oscillators[..i] + [oscillators[i]];
        OscillatorIdsAppend(oscillators[..i], oscillators[i]);
        stopped := stopped + {oscillators[i].id};
      }
      assert oscillators[..|oscillators|] == oscillators;
      released := stopped;
      shepardOscillators := [];
      if shepardGain.Some? {
        released := released + {shepardGain.value.id};
        shepardGain := None;
      }
    }

    /**
     * Starts the drone: the previous bank is released first, then a fresh shared
     * gain at 0.01 and four fresh oscillators at 110/220/440/880 Hz, each behind
     * its own gain of 0.25. A no-op when not ready.
     */
    method StartShepardTone()
      requires Valid()
      modifies this
      ensures Valid()
      ensures !old(Ready()) ==> shepardOscillators == old(shepardOscillators) && shepardGain == old(shepardGain)
                                && released == old(released) && nextId == old(nextId)
      ensures old(Ready()) ==>
                && IsShepardBank(shepardOscillators)
                && shepardGain.Some? && shepardGain.value.value == ShepardMinGain && shepardGain.value.id >= old(nextId)
                && (forall i :: 0 <= i < |shepardOscillators| ==> shepardOscillators[i].id >= old(nextId))
                && (forall o :: o in old(shepardOscillators) ==> o !in shepardOscillators)
                && released == old(released + OscillatorIds(shepardOscillators) + NodeIds(shepardGain))
      ensures context == old(context) && isInitialized == old(isInitialized)
      ensures brownNoiseSource == old(brownNoiseSource) && brownNoiseFilter == old(brownNoiseFilter)
      ensures brownNoiseGain == old(brownNoiseGain)
      ensures cues == old(cues)
    {
      if context == NotCreated || !isInitialized {
        return;
      }
      StopShepardTone();
      ghost var base := nextId;
      var gain := CreateNode(ShepardMinGain);
      var bank: seq<Oscillator> := [];
      for i := 0 to |ShepardBaseFrequencies|
        invariant Valid() && shepardGain.None? && shepardOscillators == []
        invariant |bank| == i
        invariant forall j :: 0 <= j < i ==>
                    && bank[j].baseFrequency == ShepardBaseFrequencies[j]
                    && bank[j].subGain == ShepardSubGain
                    && base <= bank[j].id < nextId
        invariant base <= gain.id < nextId && gain.value == ShepardMinGain
        invariant context == old(context) && isInitialized == old(isInitialized)
        invariant brownNoiseSource == old(brownNoiseSource) && brownNoiseFilter == old(brownNoiseFilter)
        invariant brownNoiseGain == old(brownNoiseGain)
        invariant cues == old(cues) && released == old(released + OscillatorIds(shepardOscillators) + NodeIds(shepardGain))
      {
        var frequency := ShepardBaseFrequencies[i];
        var oscillator := CreateNode(frequency);
        var oscGain := CreateNode(ShepardSubGain);
        bank := bank + [Oscillator(oscillator.id, frequency, oscGain.id, ShepardSubGain)];
        // The 10-second octave sweep is scheduled here; its re-arm is `SweepTimerFired`.
      }
      shepardGain, shepardOscillators := Some(gain), bank;
    }

    /**
     * The sweep's 10-second timer for `oscillator`: it re-arms only while the
     * oscillator is still in the drone bank. Changes nothing the model holds.
     */
    method SweepTimerFired(oscillator: Oscillator) returns (rearmed: bool)
      ensures rearmed <==> oscillator in shepardOscillators
    {
      rearmed := oscillator in shepardOscillators;
    }

    /** Ramps the drone's shared gain towards `TargetGain(urgency)`; a no-op without a drone. */
    method UpdateShepardVolume(urgency: real)
      requires Valid()
      modifies this
      ensures Valid()
      ensures old(shepardGain.None?) || context == NotCreated ==> shepardGain == old(shepardGain)
      ensures old(shepardGain.Some?) && context != NotCreated ==>
                shepardGain == Some(Node(old(shepardGain.value.id), TargetGain(urgency)))
      ensures context == old(context) && isInitialized == old(isInitialized)
      ensures brownNoiseSource == old(brownNoiseSource) && brownNoiseFilter == old(brownNoiseFilter)
      ensures brownNoiseGain == old(brownNoiseGain) && shepardOscillators == old(shepardOscillators)
      ensures nextId == old(nextId) && released == old(released) && cues == old(cues)
    {
      if shepardGain.None? || context == NotCreated {
        return;
      }
      shepardGain := Some(shepardGain.value.(value := TargetGain(urgency)));
    }

    /** The 80 Hz click: emitted only when ready; touches no held voice. */
    method PlayClickSound()
      requires Valid()
      modifies this
      ensures Valid()
      ensures cues == if old(Ready()) then old(cues) + [ClickCue] else old(cues)
      ensures context == old(context) && isInitialized == old(isInitialized)
      ensures brownNoiseSource == old(brownNoiseSource) && brownNoiseFilter == old(brownNoiseFilter)
      ensures brownNoiseGain == old(brownNoiseGain)
      ensures shepardOscillators == old(shepardOscillators) && shepardGain == old(shepardGain)
      ensures nextId == old(nextId) && released == old(released)
    {
      if context == NotCreated || !isInitialized {
        return;
      }
      cues := cues + [ClickCue];
    }

    /** The completion chord: three partials, emitted only when ready; touches no held voice. */
    method PlayCompletionSound()
      requires Valid()
      modifies this
      ensures Valid()
      ensures cues == if old(Ready()) then old(cues) + CompletionChord() else old(cues)
      ensures context == old(context) && isInitialized == old(isInitialized)
      ensures brownNoiseSource == old(brownNoiseSource) && brownNoiseFilter == old(brownNoiseFilter)
      ensures brownNoiseGain == old(brownNoiseGain)
      ensures shepardOscillators == old(shepardOscillators) && shepardGain == old(shepardGain)
      ensures nextId == old(nextId) && released == old(released)
    {
      if context == NotCreated || !isInitialized {
        return;
      }
      var emitted := cues;
      for index := 0 to |ChordFrequencies|
        invariant emitted == cues + CompletionChord()[..index]
      {
        emitted := emitted + [Cue(ChordFrequencies[index], ChordGain(index), ChordDecaySeconds)];
      }
      cues := emitted;
      assert CompletionChord()[..|ChordFrequencies|] == CompletionChord();
    }
  }

  /** The process-wide holder of the single engine instance. */
  class AudioRegistry {
    var instance: AudioManager?

    constructor ()
      ensures instance == null
    {
      instance := null;
    }

    /** `getInstance`: creates the engine on first use and returns that same engine ever after. */
    method GetInstance() returns (m: AudioManager)
      modifies this
      ensures instance == m
      ensures old(instance) != null ==> m == old(instance)
      ensures old(instance) == null ==>
                && fresh(m) && m.Valid() && m.context == NotCreated && !m.isInitialized
                && m.NoiseSilent() && m.shepardOscillators == [] && m.shepardGain.None? && m.cues == []
    {
      if instance == null {
        instance := new AudioManager();
      }
      m := instance;
    }
  }

  /** Two calls of `getInstance` return the same engine. */
  method SameInstanceTwice() returns (same: bool)
    ensures same
  {
    var registry := new AudioRegistry();
    var first := registry.GetInstance();
    var second := registry.GetInstance();
    same := first == second;
  }

  /**
   * A sweep timer of a drone oscillator re-arms while the drone plays, and
   * stops re-arming once `stopShepardTone` has run.
   */
  method SweepEndsWithStop(m: AudioManager, oscillator: Oscillator) returns (before: bool, after: bool)
    requires m.Valid() && oscillator in m.shepardOscillators
    modifies m
    ensures before && !after
  {
    before := m.SweepTimerFired(oscillator);
    m.StopShepardTone();
    after := m.SweepTimerFired(oscillator);
  }

  /**
   * Restarting the drone replaces every oscillator: a sweep timer left over
   * from the previous bank no longer re-arms.
   */
  method SweepEndsWithRestart(m: AudioManager, oscillator: Oscillator) returns (before: bool, after: bool)
    requires m.Valid() && m.Ready() && oscillator in m.shepardOscillators
    modifies m
    ensures before && !after
  {
    before := m.SweepTimerFired(oscillator);
    m.StartShepardTone();
    after := m.SweepTimerFired(oscillator);
  }
}
