/** The pieces both SynthVoice revisions are built from: the one sound the
    voices accept (Source/SynthSound.h), an abstract view of juce::ADSR, and
    the settings pushed into juce::dsp::StateVariableTPTFilter. */
module VoiceParts {

  /** The sounds a juce::Synthesiser can offer a voice. The plugin registers
      only SynthSound, whose appliesToNote and appliesToChannel accept
      everything; any other subclass stands for a foreign sound. */
  datatype Sound = SynthSound | ForeignSound

  /** canPlaySound: the dynamic_cast to SynthSound succeeds. The two
      revisions have the same body. */
  function CanPlaySound(sound: Sound): (accepted: bool)
    ensures accepted <==> sound == SynthSound
  {
    sound.SynthSound?
  }

  /** juce::ADSR::Parameters. */
  datatype AdsrParameters = AdsrParameters(attack: real, decay: real, sustain: real, release: real)

  /** The stage of juce::ADSR as the voice observes it: attack, decay and
      sustain are lumped together as Sounding; how long each stage lasts is
      foreign. */
  datatype EnvelopeStage = Idle | Sounding | Releasing

  /** juce::ADSR seen from the voice: its parameters, its sample rate and its
      stage. Only isActive() is observed by the voice. */
  datatype Envelope = Envelope(parameters: AdsrParameters, sampleRate: real, stage: EnvelopeStage)
  {
    predicate IsActive()
    {
      stage != Idle
    }

    /** noteOn starts the attack whatever the stage was. */
    function NoteOn(): (e: Envelope)
      ensures e.IsActive() && e.parameters == parameters && e.sampleRate == sampleRate
    {
      this.(stage := Sounding)
    }

    /** noteOff moves a sounding envelope into its release; an idle one stays idle. */
    function NoteOff(): (e: Envelope)
      ensures e.IsActive() <==> IsActive()
      ensures IsActive() ==> e.stage == Releasing
      ensures e.parameters == parameters && e.sampleRate == sampleRate
    {
      if stage == Idle then this else this.(stage := Releasing)
    }

    /** reset silences the envelope at once. */
    function Reset(): (e: Envelope)
      ensures !e.IsActive() && e.parameters == parameters && e.sampleRate == sampleRate
    {
      this.(stage := Idle)
    }

    /** The envelope after applyEnvelopeToBuffer has run over a block:
        `reachedIdle` reports whether its foreign progression finished the
        release within that block. Only the release stage runs down to
        idle; a sounding envelope holds its sustain level until noteOff. */
    function AfterBlock(reachedIdle: bool): (e: Envelope)
      ensures e.IsActive() <==> IsActive() && !(reachedIdle && stage == Releasing)
      ensures stage == Sounding ==> e.stage == Sounding
      ensures e.parameters == parameters && e.sampleRate == sampleRate
    {
      if reachedIdle && stage == Releasing then this.(stage := Idle) else this
    }
  }

  /** juce::dsp::StateVariableTPTFilterType. */
  datatype FilterType = Lowpass | Highpass | Bandpass

  /** What the voice hands the filter: its ProcessSpec, cutoff, resonance and type. */
  datatype FilterSettings = FilterSettings(
    sampleRate: real, maxBlockSize: int, numChannels: int,
    cutoff: real, resonance: real, filterType: FilterType)

  /** The switch in updateFilter: 0, 1 and 2 select lowpass, highpass and
      bandpass; any other value leaves the type as it was. */
  function FilterTypeAfter(current: FilterType, typeIndex: int): (t: FilterType)
    ensures typeIndex == 0 ==> t == Lowpass
    ensures typeIndex == 1 ==> t == Highpass
    ensures typeIndex == 2 ==> t == Bandpass
    ensures !(0 <= typeIndex <= 2) ==> t == current
  {
    match typeIndex
    case 0 => Lowpass
    case 1 => Highpass
    case 2 => Bandpass
    case _ => current
  }

  /** updateFilter: cutoff and resonance are taken as given (any clamping is
      the filter's own, which is foreign), the type as the switch decides. */
  function UpdatedFilter(f: FilterSettings, cutoff: real, resonance: real, typeIndex: int): (g: FilterSettings)
    ensures g.cutoff == cutoff && g.resonance == resonance
    ensures g.filterType == FilterTypeAfter(f.filterType, typeIndex)
    ensures g.sampleRate == f.sampleRate && g.maxBlockSize == f.maxBlockSize && g.numChannels == f.numChannels
  {
    f.(cutoff := cutoff, resonance := resonance, filterType := FilterTypeAfter(f.filterType, typeIndex))
  }

  /** prepare: the filter takes the voice's ProcessSpec and is set to lowpass. */
  function PreparedFilter(f: FilterSettings, sampleRate: real, samplesPerBlock: int, numChannels: int): (g: FilterSettings)
    ensures g.filterType == Lowpass
    ensures g.sampleRate == sampleRate && g.maxBlockSize == samplesPerBlock && g.numChannels == numChannels
    ensures g.cutoff == f.cutoff && g.resonance == f.resonance
  {
    f.(sampleRate := sampleRate, maxBlockSize := samplesPerBlock, numChannels := numChannels, filterType := Lowpass)
  }
}
