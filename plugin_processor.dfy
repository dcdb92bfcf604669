/** Model of Source/PluginProcessor.cpp: the processor's block logic (clear,
    play gate, oscillator frequencies and gains, two-oscillator mix), its
    bus-layout check and its parameter layout. */
module PluginProcessor {
  import opened Audio
  import opened Oscillators

  /** The values processBlock loads from the parameter tree, one per
      parameter id. A bool parameter loads as 0 or 1, a choice as its index. */
  datatype ParameterValues = ParameterValues(
    freqHz: real, play: real, osc1Gain: real, osc2Gain: real,
    detune: real, pitchShift: real, harmonics: real, osc2Mode: real)

  /** Oscillator 1: the base frequency plus the detune, in Hz rather than
      cents, shifted by the pitch in semitones. */
  function Osc1Frequency(v: ParameterValues, m: Maths): real
  {
    (v.freqHz + v.detune) * m.pow(2.0, v.pitchShift / 12.0)
  }

  /** Oscillator 2: set like oscillator 1 first, then overridden by the
      mode switch on the truncated mode value (1 = sub, 2 = fifth). */
  function Osc2Frequency(v: ParameterValues, m: Maths): real
  {
    match TruncateToInt(v.osc2Mode)
    case 1 => v.freqHz / 2.0
    case 2 => v.freqHz * 1.5
    case _ => Osc1Frequency(v, m)
  }

  /** Oscillator 1 without pitch shift (pow(2, 0) = 1) plays the base
      frequency moved by the detune in Hz; without detune either, the base
      frequency itself. */
  lemma {:induction false} Osc1WithoutShift(v: ParameterValues, m: Maths)
    requires m.pow(2.0, 0.0) == 1.0 && v.pitchShift == 0.0
    ensures Osc1Frequency(v, m) == v.freqHz + v.detune
    ensures v.detune == 0.0 ==> Osc1Frequency(v, m) == v.freqHz
  {
    assert v.pitchShift / 12.0 == 0.0;
  }

  /** The three choices of the mode parameter: Normal follows oscillator 1,
      Sub is an octave below the base frequency and Fifth a fifth above it;
      Sub and Fifth ignore detune and pitch shift altogether. A fractional
      mode value selects the choice it truncates to. */
  lemma {:induction false} Osc2Modes(v: ParameterValues, m: Maths, detune: real, pitchShift: real)
    ensures 0.0 <= v.osc2Mode < 1.0 ==> Osc2Frequency(v, m) == Osc1Frequency(v, m)
    ensures 1.0 <= v.osc2Mode < 2.0 ==> Osc2Frequency(v, m) * 2.0 == v.freqHz
    ensures 2.0 <= v.osc2Mode < 3.0 ==> Osc2Frequency(v, m) * 2.0 == v.freqHz * 3.0
    ensures 1.0 <= v.osc2Mode < 3.0 ==>
      Osc2Frequency(v.(detune := detune, pitchShift := pitchShift), m) == Osc2Frequency(v, m)
    ensures (v.osc2Mode < 0.0 || 3.0 <= v.osc2Mode) && TruncateToInt(v.osc2Mode) != 1 && TruncateToInt(v.osc2Mode) != 2 ==>
      Osc2Frequency(v, m) == Osc1Frequency(v, m)
  {
    var mode := TruncateToInt(v.osc2Mode);
    if 0.0 <= v.osc2Mode < 1.0 {
      assert mode == 0;
    } else if 1.0 <= v.osc2Mode < 2.0 {
      assert mode == 1;
    } else if 2.0 <= v.osc2Mode < 3.0 {
      assert mode == 2;
    }
  }

  /** juce::AudioChannelSet as far as the layout check distinguishes it. */
  datatype ChannelSet = Disabled | Mono | Stereo | OtherSet(id: nat)

  /** The main input and main output of a juce::AudioProcessor::BusesLayout. */
  datatype BusesLayout = BusesLayout(mainInput: ChannelSet, mainOutput: ChannelSet)

  /** The build flags JucePlugin_IsMidiEffect and JucePlugin_IsSynth. */
  datatype Build = Build(isMidiEffect: bool, isSynth: bool)

  /** isBusesLayoutSupported. */
  function IsBusesLayoutSupported(layouts: BusesLayout, build: Build): (supported: bool)
    ensures build.isMidiEffect ==> supported
    ensures !build.isMidiEffect && supported ==> layouts.mainOutput == Mono || layouts.mainOutput == Stereo
    ensures !build.isMidiEffect && !build.isSynth && supported ==> layouts.mainInput == layouts.mainOutput
  {
    if build.isMidiEffect then true
    else if layouts.mainOutput != Mono && layouts.mainOutput != Stereo then false
    else if !build.isSynth && layouts.mainOutput != layouts.mainInput then false
    else true
  }

  /** The conditions above are also sufficient: a mono or stereo output is
      accepted whenever the input matches it, and for a synth whatever the
      input is. */
  lemma {:induction false} LayoutAcceptance(layouts: BusesLayout, build: Build, otherInput: ChannelSet)
    requires !build.isMidiEffect && (layouts.mainOutput == Mono || layouts.mainOutput == Stereo)
    ensures layouts.mainInput == layouts.mainOutput ==> IsBusesLayoutSupported(layouts, build)
    ensures build.isSynth ==> IsBusesLayoutSupported(layouts.(mainInput := otherInput), build)
  {
  }

  /** The buses the constructor declares: none for a MIDI effect, otherwise
      a stereo output, plus a stereo input unless the plugin is a synth. */
  function DefaultLayout(build: Build): (layout: BusesLayout)
    ensures !build.isMidiEffect ==> layout.mainOutput == Stereo
    ensures build.isMidiEffect ==> layout.mainOutput == Disabled
    ensures layout.mainInput == Stereo <==> !build.isMidiEffect && !build.isSynth
  {
    if build.isMidiEffect then BusesLayout(Disabled, Disabled)
    else if build.isSynth then BusesLayout(Disabled, Stereo)
    else BusesLayout(Stereo, Stereo)
  }

  /** The processor accepts the layout it declares, in every build. */
  lemma {:induction false} DefaultLayoutSupported(build: Build)
    ensures IsBusesLayoutSupported(DefaultLayout(build), build)
  {
    var layout := DefaultLayout(build);
    if !build.isMidiEffect {
      assert layout.mainOutput == Stereo;
      if !build.isSynth {
        assert layout.mainInput == Stereo;
      }
    }
  }

  /** The kinds of parameter createParameters builds. */
  datatype ParameterKind =
    | FloatParameter(min: real, max: real, defaultValue: real)
    | BoolParameter(defaultOn: bool)
    | ChoiceParameter(choices: seq<string>, defaultIndex: nat)

  datatype ParameterSpec = ParameterSpec(id: string, name: string, kind: ParameterKind)

  /** The default lies in the declared range (a choice's default indexes one
      of its choices). */
  predicate DefaultInRange(kind: ParameterKind)
  {
    match kind
    case FloatParameter(min, max, d) => min <= d <= max
    case BoolParameter(_) => true
    case ChoiceParameter(choices, d) => d < |choices|
  }

  /** The value a parameter loads as before the user touches it. */
  function DefaultValue(kind: ParameterKind): real
  {
    match kind
    case FloatParameter(_, _, d) => d
    case BoolParameter(on) => if on then 1.0 else 0.0
    case ChoiceParameter(_, d) => d as real
  }

  /** createParameters: eight parameters with distinct ids, every default
      inside its range. */
  function CreateParameters(): (layout: seq<ParameterSpec>)
    ensures |layout| == 8
    ensures forall i :: 0 <= i < |layout| ==> DefaultInRange(layout[i].kind)
    ensures forall i, j :: 0 <= i < j < |layout| ==> layout[i].id != layout[j].id
  {
    [ ParameterSpec("freqHz", "Frequency", FloatParameter(20.0, 20000.0, 220.0)),
      ParameterSpec("play", "Play", BoolParameter(true)),
      ParameterSpec("osc1Gain", "Osc 1 Gain", FloatParameter(0.0, 1.0, 0.8)),
      ParameterSpec("osc2Gain", "Osc 2 Gain", FloatParameter(0.0, 1.0, 0.4)),
      ParameterSpec("detune", "Detune", FloatParameter(-50.0, 50.0, 0.0)),
      ParameterSpec("pitchShift", "Pitch Shift (Semitones)", FloatParameter(-24.0, 24.0, 0.0)),
      ParameterSpec("harmonics", "Harmonics", FloatParameter(1.0, 10.0, 1.0)),
      ParameterSpec("osc2Mode", "Osc 2 Mode", ChoiceParameter(["Normal", "Sub", "Fifth"], 0)) ]
  }

  /** The values processBlock loads from a fresh parameter tree. */
  function DefaultValues(): ParameterValues
  {
    var layout := CreateParameters();
    ParameterValues(
      DefaultValue(layout[0].kind), DefaultValue(layout[1].kind), DefaultValue(layout[2].kind),
      DefaultValue(layout[3].kind), DefaultValue(layout[4].kind), DefaultValue(layout[5].kind),
      DefaultValue(layout[6].kind), DefaultValue(layout[7].kind))
  }

  /** Out of the box the plugin plays: both oscillators at 220 Hz (given
      pow(2, 0) = 1), at gains 0.8 and 0.4. */
  lemma {:induction false} DefaultsPlay(m: Maths)
    requires m.pow(2.0, 0.0) == 1.0
    ensures DefaultValues().play != 0.0
    ensures Osc1Frequency(DefaultValues(), m) == 220.0
    ensures Osc2Frequency(DefaultValues(), m) == 220.0
    ensures DefaultValues().osc1Gain == 0.8 && DefaultValues().osc2Gain == 0.4
  {
    var v := DefaultValues();
    assert v == ParameterValues(220.0, 1.0, 0.8, 0.4, 0.0, 0.0, 1.0, 0.0);
    Osc1WithoutShift(v, m);
    Osc2Modes(v, m, 0.0, 0.0);
  }

  /** The mix loop of processBlock: every output sample is overwritten by
      the sum of the two oscillator buffers' samples. */
  method WriteSum(out: array2<real>, a: array2<real>, b: array2<real>)
    requires a.Length0 == out.Length0 && a.Length1 == out.Length1
    requires b.Length0 == out.Length0 && b.Length1 == out.Length1
    requires out != a && out != b
    modifies out
    ensures forall ch, i :: 0 <= ch < out.Length0 && 0 <= i < out.Length1 ==> out[ch, i] == a[ch, i] + b[ch, i]
  {
    var ch := 0;
    while ch < out.Length0
      invariant 0 <= ch <= out.Length0
      invariant forall c, k :: 0 <= c < ch && 0 <= k < out.Length1 ==> out[c, k] == a[c, k] + b[c, k]
    {
      var i := 0;
      while i < out.Length1
        invariant 0 <= i <= out.Length1
        invariant forall c, k :: 0 <= c < ch && 0 <= k < out.Length1 ==> out[c, k] == a[c, k] + b[c, k]
        invariant forall k :: 0 <= k < i ==> out[ch, k] == a[ch, k] + b[ch, k]
      {
        out[ch, i] := a[ch, i] + b[ch, i];
        i := i + 1;
      }
      ch := ch + 1;
    }
  }

  /** The rendering half of processBlock: each oscillator renders into a
      cleared scratch buffer of the block's shape (their foreign output being
      `o1` and `o2`), and every output sample is overwritten by the sum of
      the two. Each oscillator's smoother moves on by the block's length;
      its shape, base frequency and gain stay as they were. */
  method RenderSum(osc1: Oscillator, osc2: Oscillator, buffer: array2<real>, o1: Block, o2: Block)
    requires osc1 != osc2
    requires IsBlock(o1, buffer.Length0, buffer.Length1) && IsBlock(o2, buffer.Length0, buffer.Length1)
    modifies buffer, osc1, osc2
    ensures forall ch, i :: 0 <= ch < buffer.Length0 && 0 <= i < buffer.Length1 ==> buffer[ch, i] == o1[ch][i] + o2[ch][i]
    ensures osc1.smoother == old(osc1.smoother).Advance(buffer.Length1)
    ensures osc2.smoother == old(osc2.smoother).Advance(buffer.Length1)
    ensures osc1.waveform == old(osc1.waveform) && osc2.waveform == old(osc2.waveform)
    ensures osc1.baseFrequency == old(osc1.baseFrequency) && osc2.baseFrequency == old(osc2.baseFrequency)
    ensures osc1.gain == old(osc1.gain) && osc2.gain == old(osc2.gain)
    ensures osc1.tableSize == old(osc1.tableSize) && osc2.tableSize == old(osc2.tableSize)
    ensures osc1.sampleRate == old(osc1.sampleRate) && osc2.sampleRate == old(osc2.sampleRate)
    ensures osc1.maxBlockSize == old(osc1.maxBlockSize) && osc2.maxBlockSize == old(osc2.maxBlockSize)
    ensures osc1.numChannels == old(osc1.numChannels) && osc2.numChannels == old(osc2.numChannels)
  {
    var numChannels, numSamples := buffer.Length0, buffer.Length1;
    var osc1Buf := new real[numChannels, numSamples];
    var osc2Buf := new real[numChannels, numSamples];
    ClearBuffer(osc1Buf);
    ClearBuffer(osc2Buf);
    osc1.Process(osc1Buf, o1);
    osc2.Process(osc2Buf, o2);
    WriteSum(buffer, osc1Buf, osc2Buf);
  }

  /** AudioPluginAudioProcessor. */
  class Processor {
    const osc1: Oscillator
    const osc2: Oscillator
    /** The buses declared by the constructor. */
    const buses: BusesLayout

    ghost predicate Valid()
    {
      osc1 != osc2
    }

    constructor (build: Build)
      ensures Valid() && fresh(osc1) && fresh(osc2)
      ensures buses == DefaultLayout(build)
    {
      osc1 := new Oscillator();
      osc2 := new Oscillator();
      buses := DefaultLayout(build);
    }

    /** prepareToPlay: both oscillators are prepared with the output channel
        count and set to waveform 0 (the parameter pointers it also looks up
        are host plumbing). */
    method PrepareToPlay(sampleRate: real, samplesPerBlock: int, totalNumOutputChannels: int)
      requires Valid()
      modifies osc1, osc2
      ensures osc1.waveform == Sine && osc2.waveform == Sine
      ensures osc1.sampleRate == sampleRate && osc2.sampleRate == sampleRate
      ensures osc1.maxBlockSize == samplesPerBlock && osc2.maxBlockSize == samplesPerBlock
      ensures 0.0 < sampleRate ==>
        osc1.smoother.stepsToTarget == RampSteps(sampleRate) && osc2.smoother.stepsToTarget == RampSteps(sampleRate)
      ensures osc1.numChannels == totalNumOutputChannels && osc2.numChannels == totalNumOutputChannels
      ensures osc1.smoother.target == 440.0 && osc2.smoother.target == 440.0
      ensures osc1.smoother.current == 440.0 && osc2.smoother.current == 440.0
      ensures !osc1.smoother.IsSmoothing() && !osc2.smoother.IsSmoothing()
      ensures osc1.phase == 0.0 && osc2.phase == 0.0
      ensures osc1.gain == old(osc1.gain) && osc2.gain == old(osc2.gain)
      ensures osc1.baseFrequency == old(osc1.baseFrequency) && osc2.baseFrequency == old(osc2.baseFrequency)
    {
      osc1.Prepare(sampleRate, samplesPerBlock, totalNumOutputChannels);
      osc2.Prepare(sampleRate, samplesPerBlock, totalNumOutputChannels);
      osc1.SetWaveform(0);
      osc2.SetWaveform(0);
    }

    /** processBlock. The buffer is cleared; with play off nothing else
        happens. Otherwise the oscillators get their frequencies and gains,
        each renders into a cleared scratch buffer of the block's shape
        (their foreign output being `o1` and `o2`), and every output sample
        is overwritten by the sum of the two. */
    method ProcessBlock(buffer: array2<real>, v: ParameterValues, m: Maths, o1: Block, o2: Block)
      requires Valid()
      requires IsBlock(o1, buffer.Length0, buffer.Length1) && IsBlock(o2, buffer.Length0, buffer.Length1)
      modifies buffer, osc1, osc2
      ensures v.play == 0.0 ==> unchanged(osc1, osc2)
      ensures v.play == 0.0 ==>
        forall ch, i :: 0 <= ch < buffer.Length0 && 0 <= i < buffer.Length1 ==> buffer[ch, i] == 0.0
      ensures v.play != 0.0 ==>
        forall ch, i :: 0 <= ch < buffer.Length0 && 0 <= i < buffer.Length1 ==> buffer[ch, i] == o1[ch][i] + o2[ch][i]
      ensures v.play != 0.0 ==>
        osc1.smoother.target == Osc1Frequency(v, m) && osc1.baseFrequency == osc1.smoother.target &&
        osc2.smoother.target == Osc2Frequency(v, m) && osc2.baseFrequency == osc2.smoother.target &&
        osc1.gain == v.osc1Gain && osc2.gain == v.osc2Gain
      ensures v.play != 0.0 ==>
        osc1.smoother.current == osc1.smoother.target && !osc1.smoother.IsSmoothing() &&
        osc2.smoother.current == osc2.smoother.target && !osc2.smoother.IsSmoothing()
      ensures osc1.waveform == old(osc1.waveform) && osc2.waveform == old(osc2.waveform)
      ensures osc1.tableSize == old(osc1.tableSize) && osc2.tableSize == old(osc2.tableSize)
      ensures osc1.sampleRate == old(osc1.sampleRate) && osc2.sampleRate == old(osc2.sampleRate)
      ensures osc1.maxBlockSize == old(osc1.maxBlockSize) && osc2.maxBlockSize == old(osc2.maxBlockSize)
      ensures osc1.numChannels == old(osc1.numChannels) && osc2.numChannels == old(osc2.numChannels)
      ensures osc1.smoother.stepsToTarget == old(osc1.smoother.stepsToTarget) &&
        osc2.smoother.stepsToTarget == old(osc2.smoother.stepsToTarget)
    {
      ClearBuffer(buffer);
      if v.play == 0.0 {
        return;
      }
      var baseFreq := v.freqHz;
      var detuned := baseFreq + v.detune;
      var pitchFactor := m.pow(2.0, v.pitchShift / 12.0);
      osc1.SetFrequency(detuned * pitchFactor);
      osc2.SetFrequency(detuned * pitchFactor);
      match TruncateToInt(v.osc2Mode) {
        case 1 => osc2.SetFrequency(baseFreq / 2.0);
        case 2 => osc2.SetFrequency(baseFreq * 1.5);
        case _ =>
      }
      osc1.SetGain(v.osc1Gain);
      osc2.SetGain(v.osc2Gain);

      AdvanceAtRest(osc1.smoother, buffer.Length1);
      AdvanceAtRest(osc2.smoother, buffer.Length1);
      RenderSum(osc1, osc2, buffer, o1, o2);
    }
  }
}
