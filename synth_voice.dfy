/** Model of Source/SynthVoice.cpp, the canonical revision of the voice: two
    oscillators with independent pitch choice, detune and gain, a clamped
    blend, on/off switches with a small-signal gate, the note lifecycle, and
    the render that mixes, hands the mix to the envelope and the filter, adds
    it into the shared output and frees the voice once the envelope is idle. */
module SynthVoice {
  import opened Audio
  import opened Oscillators
  import opened VoiceParts

  /** indexToSemitone: the pitch-choice table. */
  function IndexToSemitone(index: int): (semitones: real)
    ensures -12.0 <= semitones <= 12.0
    ensures !(0 <= index <= 4) ==> semitones == 0.0
  {
    match index
    case 0 => -12.0
    case 1 => -7.0
    case 2 => 0.0
    case 3 => 7.0
    case 4 => 12.0
    case _ => 0.0
  }

  /** The table holds an octave down, a fifth down, unison, a fifth up and
      an octave up: strictly rising, symmetric about
      the middle entry, and every index outside it plays unison. */
  lemma {:induction false} SemitoneTable(i: int, j: int)
    ensures IndexToSemitone(0) == -12.0 && IndexToSemitone(1) == -7.0 && IndexToSemitone(2) == 0.0
    ensures IndexToSemitone(3) == 7.0 && IndexToSemitone(4) == 12.0
    ensures 0 <= i < j <= 4 ==> IndexToSemitone(i) < IndexToSemitone(j)
    ensures 0 <= i <= 4 ==> IndexToSemitone(4 - i) == -IndexToSemitone(i)
    ensures !(0 <= i <= 4) ==> IndexToSemitone(i) == IndexToSemitone(2)
  {
  }

  /** The frequency updateFromParameters gives one oscillator: the note's
      frequency raised by the chosen semitone offset and by the detune in
      cents. The pitch index arrives as a float and is truncated to int. */
  function OscillatorFrequency(baseFrequency: real, pitchIndex: real, detuneCents: real, m: Maths): real
  {
    baseFrequency * m.pow(2.0, IndexToSemitone(TruncateToInt(pitchIndex)) / 12.0)
                  * m.pow(2.0, detuneCents / 1200.0)
  }

  /** With no detune and a pitch choice whose integer part is 2 or lies
      outside the table (so also every index of 5 or more), the oscillator
      plays the note's own frequency. */
  lemma {:induction false} OscillatorFrequencyAtUnison(baseFrequency: real, pitchIndex: real, m: Maths)
    requires m.pow(2.0, 0.0) == 1.0
    requires var k := TruncateToInt(pitchIndex); k == 2 || k < 0 || 4 < k
    ensures OscillatorFrequency(baseFrequency, pitchIndex, 0.0, m) == baseFrequency
  {
    var k := TruncateToInt(pitchIndex);
    assert IndexToSemitone(k) == 0.0;
    assert 0.0 / 12.0 == 0.0 && 0.0 / 1200.0 == 0.0;
  }

  /** The threshold below which a sample is treated as silence (1e-6). */
  const SilenceThreshold: real := 0.000001

  /** One oscillator's sample as it enters the blend: 0 when the oscillator
      is switched off, 0 when its magnitude is below the threshold, the
      sample itself otherwise. */
  function Gate(on: bool, s: real): (g: real)
    ensures !on ==> g == 0.0
    ensures -SilenceThreshold < s < SilenceThreshold ==> g == 0.0
    ensures on && !(-SilenceThreshold < s < SilenceThreshold) ==> g == s
  {
    var t := if on then s else 0.0;
    if -SilenceThreshold < t < SilenceThreshold then 0.0 else t
  }

  /** One mixed sample: the gated samples blended and scaled by velocity. */
  function MixSample(s1: real, s2: real, on1: bool, on2: bool, blend: real, level: real): real
  {
    (Gate(on1, s1) * (1.0 - blend) + Gate(on2, s2) * blend) * level
  }

  /** The blend end points and the switches: blend 0 plays oscillator 1
      alone, blend 1 oscillator 2 alone, whatever the other one's switch; a
      switched-off oscillator adds nothing; both off is silence. */
  lemma {:induction false} MixSelects(s1: real, s2: real, on1: bool, on2: bool, blend: real, level: real)
    ensures blend == 0.0 ==> MixSample(s1, s2, on1, on2, blend, level) == Gate(on1, s1) * level
    ensures blend == 1.0 ==> MixSample(s1, s2, on1, on2, blend, level) == Gate(on2, s2) * level
    ensures !on2 ==> MixSample(s1, s2, on1, on2, blend, level) == Gate(on1, s1) * (1.0 - blend) * level
    ensures !on1 ==> MixSample(s1, s2, on1, on2, blend, level) == Gate(on2, s2) * blend * level
    ensures !on1 && !on2 ==> MixSample(s1, s2, on1, on2, blend, level) == 0.0
  {
    assert !on2 ==> Gate(on2, s2) == 0.0;
    assert !on1 ==> Gate(on1, s1) == 0.0;
  }

  /** With the blend in [0, 1] the mix is a weighted average of the two
      gated samples, so it never leaves the range the oscillators span,
      scaled by a non-negative velocity. */
  lemma {:induction false} MixWithinOscillatorRange(s1: real, s2: real, on1: bool, on2: bool,
                                                   blend: real, level: real, bound: real)
    requires 0.0 <= blend <= 1.0 && 0.0 <= level
    requires -bound <= s1 <= bound && -bound <= s2 <= bound
    ensures -bound * level <= MixSample(s1, s2, on1, on2, blend, level) <= bound * level
  {
    var g1, g2 := Gate(on1, s1), Gate(on2, s2);
    GateWithin(on1, s1, bound);
    GateWithin(on2, s2, bound);
    WeightedAverageWithin(g1, g2, blend, bound);
    var avg := g1 * (1.0 - blend) + g2 * blend;
    assert MixSample(s1, s2, on1, on2, blend, level) == avg * level;
    ScaledWithin(avg, bound, level);
  }

  /** The gate never moves a sample outside a bound it respects. */
  lemma GateWithin(on: bool, s: real, bound: real)
    requires -bound <= s <= bound
    ensures -bound <= Gate(on, s) <= bound
  {
  }

  /** The whole mix buffer for one block. */
  function MixBlock(o1: Block, o2: Block, channels: nat, samples: nat,
                    on1: bool, on2: bool, blend: real, level: real): (mix: Block)
    requires IsBlock(o1, channels, samples) && IsBlock(o2, channels, samples)
    ensures IsBlock(mix, channels, samples)
    ensures forall ch, i :: 0 <= ch < channels && 0 <= i < samples ==>
      mix[ch][i] == MixSample(o1[ch][i], o2[ch][i], on1, on2, blend, level)
  {
    seq(channels, ch requires 0 <= ch < channels =>
      seq(samples, i requires 0 <= i < samples => MixSample(o1[ch][i], o2[ch][i], on1, on2, blend, level)))
  }

  /** The first loop of renderNextBlock: every sample of the mix buffer is
      the mix of the two oscillator buffers at the same position. */
  method WriteMix(mix: array2<real>, o1: Block, o2: Block, on1: bool, on2: bool, blend: real, level: real)
    requires IsBlock(o1, mix.Length0, mix.Length1) && IsBlock(o2, mix.Length0, mix.Length1)
    modifies mix
    ensures Snapshot(mix) == MixBlock(o1, o2, mix.Length0, mix.Length1, on1, on2, blend, level)
  {
    var ch := 0;
    while ch < mix.Length0
      invariant 0 <= ch <= mix.Length0
      invariant forall c, i :: 0 <= c < ch && 0 <= i < mix.Length1 ==>
        mix[c, i] == MixSample(o1[c][i], o2[c][i], on1, on2, blend, level)
    {
      var i := 0;
      while i < mix.Length1
        invariant 0 <= i <= mix.Length1
        invariant forall c, k :: 0 <= c < ch && 0 <= k < mix.Length1 ==>
          mix[c, k] == MixSample(o1[c][k], o2[c][k], on1, on2, blend, level)
        invariant forall k :: 0 <= k < i ==>
          mix[ch, k] == MixSample(o1[ch][k], o2[ch][k], on1, on2, blend, level)
      {
        var s1 := if on1 then o1[ch][i] else 0.0;
        var s2 := if on2 then o2[ch][i] else 0.0;
        if -SilenceThreshold < s1 < SilenceThreshold { s1 := 0.0; }
        if -SilenceThreshold < s2 < SilenceThreshold { s2 := 0.0; }
        var mixed := s1 * (1.0 - blend) + s2 * blend;
        mix[ch, i] := mixed * level;
        i := i + 1;
      }
      ch := ch + 1;
    }
    ghost var want := MixBlock(o1, o2, mix.Length0, mix.Length1, on1, on2, blend, level);
    ghost var got := Snapshot(mix);
    assert forall c :: 0 <= c < mix.Length0 ==> got[c] == want[c];
  }

  /** The first half of renderNextBlock: each oscillator renders into a
      cleared scratch buffer of the block's shape (their foreign output being
      `o1` and `o2`), and the two buffers come back as blocks. Each
      oscillator's smoother moves on by the block's length; its shape, base
      frequency and gain stay as they were. */
  method RenderOscillators(osc1: Oscillator, osc2: Oscillator, numChannels: nat, numSamples: nat,
                           o1: Block, o2: Block)
    returns (rendered1: Block, rendered2: Block)
    requires osc1 != osc2
    requires IsBlock(o1, numChannels, numSamples) && IsBlock(o2, numChannels, numSamples)
    modifies osc1, osc2
    ensures rendered1 == o1 && rendered2 == o2
    ensures osc1.smoother == old(osc1.smoother).Advance(numSamples)
    ensures osc2.smoother == old(osc2.smoother).Advance(numSamples)
    ensures osc1.waveform == old(osc1.waveform) && osc2.waveform == old(osc2.waveform)
    ensures osc1.baseFrequency == old(osc1.baseFrequency) && osc2.baseFrequency == old(osc2.baseFrequency)
    ensures osc1.gain == old(osc1.gain) && osc2.gain == old(osc2.gain)
    ensures osc1.sampleRate == old(osc1.sampleRate) && osc2.sampleRate == old(osc2.sampleRate)
  {
    var temp1 := new real[numChannels, numSamples];
    var temp2 := new real[numChannels, numSamples];
    ClearBuffer(temp1);
    ClearBuffer(temp2);
    osc1.Process(temp1, o1);
    osc2.Process(temp2, o2);
    SnapshotHolds(temp1, o1);
    SnapshotHolds(temp2, o2);
    rendered1, rendered2 := Snapshot(temp1), Snapshot(temp2);
  }

  /** The second half of renderNextBlock: the two oscillator blocks are
      mixed, the mix goes through the envelope and then the filter (both
      foreign block stages), and the result is added into the window
      [startSample, startSample + numSamples) of every output channel. */
  method AddProcessedMix(output: array2<real>, startSample: nat, numSamples: nat, rendered1: Block, rendered2: Block,
                       on1: bool, on2: bool, blend: real, level: real,
                       applyEnvelope: Block -> Block, applyFilter: Block -> Block)
    requires startSample + numSamples <= output.Length1
    requires IsBlock(rendered1, output.Length0, numSamples) && IsBlock(rendered2, output.Length0, numSamples)
    requires KeepsShape(applyEnvelope) && KeepsShape(applyFilter)
    modifies output
    ensures var processed := applyFilter(applyEnvelope(MixBlock(rendered1, rendered2, output.Length0, numSamples, on1, on2, blend, level)));
      IsBlock(processed, output.Length0, numSamples) &&
      forall ch, j :: 0 <= ch < output.Length0 && 0 <= j < output.Length1 ==>
        output[ch, j] == if startSample <= j < startSample + numSamples
                         then old(output[ch, j]) + processed[ch][j - startSample]
                         else old(output[ch, j])
  {
    var numChannels := output.Length0;
    var mix := new real[numChannels, numSamples];
    WriteMix(mix, rendered1, rendered2, on1, on2, blend, level);
    var enveloped := applyEnvelope(Snapshot(mix));
    assert IsBlock(enveloped, numChannels, numSamples);
    var processed := applyFilter(enveloped);
    assert IsBlock(processed, numChannels, numSamples);
    AddBlock(output, startSample, processed, numSamples);
  }

  /** The voice of SynthVoice.cpp. */
  class SynthVoice {
    const osc1: Oscillator
    const osc2: Oscillator
    /** juce::ADSR together with the adsrParams it was last given. */
    var envelope: Envelope
    var filter: FilterSettings
    var baseFrequency: real
    /** The note's velocity, used as the output level. */
    var level: real
    var isActive: bool
    var blend: real
    var osc1On: bool
    var osc2On: bool
    /** SynthesiserVoice's note claim; clearCurrentNote sets it to -1. */
    var currentNote: int

    ghost predicate Valid()
      reads this
    {
      osc1 != osc2 && 0.0 <= blend <= 1.0
    }

    /** The fields start as the class declares them. */
    constructor ()
      ensures Valid() && fresh(osc1) && fresh(osc2)
      ensures !isActive && level == 0.0 && baseFrequency == 0.0
      ensures blend == 0.5 && osc1On && osc2On && currentNote == -1
      ensures !envelope.IsActive()
    {
      osc1 := new Oscillator();
      osc2 := new Oscillator();
      envelope := Envelope(AdsrParameters(0.0, 0.0, 0.0, 0.0), 0.0, Idle);
      filter := FilterSettings(0.0, 0, 0, 0.0, 0.0, Lowpass);
      baseFrequency, level, isActive := 0.0, 0.0, false;
      blend, osc1On, osc2On := 0.5, true, true;
      currentNote := -1;
    }

    /** prepare: both oscillators, the envelope's sample rate and the
        filter's spec, with the filter set to lowpass. */
    method Prepare(sampleRate: real, samplesPerBlock: int, numChannels: int)
      requires Valid()
      modifies this, osc1, osc2
      ensures Valid()
      ensures osc1.waveform == Sine && osc2.waveform == Sine && osc1.sampleRate == sampleRate && osc2.sampleRate == sampleRate
      ensures osc1.phase == 0.0 && osc2.phase == 0.0
      ensures osc1.smoother.current == 440.0 && osc1.smoother.target == 440.0 && !osc1.smoother.IsSmoothing()
      ensures osc2.smoother.current == 440.0 && osc2.smoother.target == 440.0 && !osc2.smoother.IsSmoothing()
      ensures osc1.smoother.stepsToTarget == if 0.0 < sampleRate then RampSteps(sampleRate) else old(osc1.smoother.stepsToTarget)
      ensures osc2.smoother.stepsToTarget == if 0.0 < sampleRate then RampSteps(sampleRate) else old(osc2.smoother.stepsToTarget)
      ensures osc1.gain == old(osc1.gain) && osc2.gain == old(osc2.gain)
      ensures osc1.baseFrequency == old(osc1.baseFrequency) && osc2.baseFrequency == old(osc2.baseFrequency)
      ensures envelope == old(envelope).(sampleRate := sampleRate)
      ensures filter == PreparedFilter(old(filter), sampleRate, samplesPerBlock, numChannels)
      ensures isActive == old(isActive) && level == old(level) && baseFrequency == old(baseFrequency)
      ensures blend == old(blend) && osc1On == old(osc1On) && osc2On == old(osc2On)
      ensures currentNote == old(currentNote)
    {
      osc1.Prepare(sampleRate, samplesPerBlock, numChannels);
      osc2.Prepare(sampleRate, samplesPerBlock, numChannels);
      envelope := envelope.(sampleRate := sampleRate);
      filter := PreparedFilter(filter, sampleRate, samplesPerBlock, numChannels);
    }

    /** startNote: the note's frequency, the velocity as level, both
        oscillator phases reset, the voice active and the envelope started. */
    method StartNote(midiNoteNumber: int, velocity: real, m: Maths)
      requires Valid()
      modifies this, osc1, osc2
      ensures Valid()
      ensures isActive && envelope == old(envelope).NoteOn()
      ensures level == velocity && baseFrequency == m.midiNoteInHertz(midiNoteNumber)
      ensures osc1.phase == 0.0 && osc2.phase == 0.0
      ensures osc1.smoother.target == old(osc1.smoother.target) && osc2.smoother.target == old(osc2.smoother.target)
      ensures 0.0 < osc1.sampleRate ==> osc1.smoother.current == osc1.smoother.target && !osc1.smoother.IsSmoothing()
      ensures 0.0 < osc2.sampleRate ==> osc2.smoother.current == osc2.smoother.target && !osc2.smoother.IsSmoothing()
      ensures osc1.sampleRate <= 0.0 ==> osc1.smoother == old(osc1.smoother)
      ensures osc2.sampleRate <= 0.0 ==> osc2.smoother == old(osc2.smoother)
      ensures osc1.baseFrequency == old(osc1.baseFrequency) && osc2.baseFrequency == old(osc2.baseFrequency)
      ensures osc1.sampleRate == old(osc1.sampleRate) && osc2.sampleRate == old(osc2.sampleRate)
      ensures osc1.waveform == old(osc1.waveform) && osc2.waveform == old(osc2.waveform)
      ensures osc1.gain == old(osc1.gain) && osc2.gain == old(osc2.gain)
      ensures filter == old(filter) && blend == old(blend)
      ensures osc1On == old(osc1On) && osc2On == old(osc2On) && currentNote == old(currentNote)
    {
      baseFrequency := m.midiNoteInHertz(midiNoteNumber);
      level := velocity;
      osc1.Reset();
      osc2.Reset();
      isActive := true;
      envelope := envelope.NoteOn();
    }

    /** stopNote: with tail-off only the envelope's release starts and the
        voice stays as active as it was; without, the envelope is reset and
        the voice is freed at once. */
    method StopNote(velocity: real, allowTailOff: bool)
      requires Valid()
      modifies this
      ensures Valid()
      ensures allowTailOff ==> isActive == old(isActive) && envelope == old(envelope).NoteOff()
                               && currentNote == old(currentNote)
      ensures !allowTailOff ==> !isActive && envelope == old(envelope).Reset() && currentNote == -1
      ensures filter == old(filter) && level == old(level) && baseFrequency == old(baseFrequency)
      ensures blend == old(blend) && osc1On == old(osc1On) && osc2On == old(osc2On)
    {
      if allowTailOff {
        envelope := envelope.NoteOff();
      } else {
        envelope := envelope.Reset();
        isActive := false;
        currentNote := -1;
      }
    }

    /** updateFromParameters: each oscillator gets its own gain and the
        note's frequency shifted by its pitch choice and detune; the blend is
        clamped into [0, 1] whatever value arrives. */
    method UpdateFromParameters(gain1: real, pitchIndex1: real, detune1: real,
                                gain2: real, pitchIndex2: real, detune2: real,
                                blendAmount: real, m: Maths)
      requires Valid()
      modifies this, osc1, osc2
      ensures Valid()
      ensures osc1.gain == gain1 && osc2.gain == gain2
      ensures osc1.smoother.target == OscillatorFrequency(baseFrequency, pitchIndex1, detune1, m)
      ensures osc2.smoother.target == OscillatorFrequency(baseFrequency, pitchIndex2, detune2, m)
      ensures osc1.baseFrequency == osc1.smoother.target && osc2.baseFrequency == osc2.smoother.target
      ensures osc1.smoother.current == osc1.smoother.target && !osc1.smoother.IsSmoothing()
      ensures osc2.smoother.current == osc2.smoother.target && !osc2.smoother.IsSmoothing()
      ensures osc1.smoother.stepsToTarget == old(osc1.smoother.stepsToTarget)
      ensures osc2.smoother.stepsToTarget == old(osc2.smoother.stepsToTarget)
      ensures osc1.sampleRate == old(osc1.sampleRate) && osc2.sampleRate == old(osc2.sampleRate)
      ensures blend == Clamp(0.0, 1.0, blendAmount)
      ensures osc1.waveform == old(osc1.waveform) && osc2.waveform == old(osc2.waveform)
      ensures osc1.phase == old(osc1.phase) && osc2.phase == old(osc2.phase)
      ensures isActive == old(isActive) && envelope == old(envelope) && filter == old(filter)
      ensures level == old(level) && baseFrequency == old(baseFrequency)
      ensures osc1On == old(osc1On) && osc2On == old(osc2On) && currentNote == old(currentNote)
    {
      var semis1 := IndexToSemitone(TruncateToInt(pitchIndex1));
      var semis2 := IndexToSemitone(TruncateToInt(pitchIndex2));
      var pitchRatio1 := m.pow(2.0, semis1 / 12.0);
      var pitchRatio2 := m.pow(2.0, semis2 / 12.0);
      var detuneRatio1 := m.pow(2.0, detune1 / 1200.0);
      var detuneRatio2 := m.pow(2.0, detune2 / 1200.0);
      osc1.SetGain(gain1);
      osc2.SetGain(gain2);
      osc1.SetFrequency(baseFrequency * pitchRatio1 * detuneRatio1);
      osc2.SetFrequency(baseFrequency * pitchRatio2 * detuneRatio2);
      blend := Clamp(0.0, 1.0, blendAmount);
    }

    /** updateEnvelope: the four ADSR parameters are handed on as given. */
    method UpdateEnvelope(attack: real, decay: real, sustain: real, release: real)
      requires Valid()
      modifies this
      ensures Valid()
      ensures envelope == old(envelope).(parameters := AdsrParameters(attack, decay, sustain, release))
      ensures isActive == old(isActive) && filter == old(filter) && level == old(level)
      ensures baseFrequency == old(baseFrequency) && blend == old(blend)
      ensures osc1On == old(osc1On) && osc2On == old(osc2On) && currentNote == old(currentNote)
    {
      envelope := envelope.(parameters := AdsrParameters(attack, decay, sustain, release));
    }

    /** updateFilter. */
    method UpdateFilter(cutoff: real, resonance: real, typeIndex: int)
      requires Valid()
      modifies this
      ensures Valid()
      ensures filter == UpdatedFilter(old(filter), cutoff, resonance, typeIndex)
      ensures isActive == old(isActive) && envelope == old(envelope) && level == old(level)
      ensures baseFrequency == old(baseFrequency) && blend == old(blend)
      ensures osc1On == old(osc1On) && osc2On == old(osc2On) && currentNote == old(currentNote)
    {
      filter := UpdatedFilter(filter, cutoff, resonance, typeIndex);
    }

    /** updateOscillators: each oscillator's shape from its index, and the
        blend clamped into [0, 1]. */
    method UpdateOscillators(wave1: int, wave2: int, blendAmount: real)
      requires Valid()
      modifies this, osc1, osc2
      ensures Valid()
      ensures osc1.waveform == WaveformOf(wave1) && osc2.waveform == WaveformOf(wave2)
      ensures blend == Clamp(0.0, 1.0, blendAmount)
      ensures osc1.smoother == old(osc1.smoother) && osc2.smoother == old(osc2.smoother)
      ensures osc1.baseFrequency == old(osc1.baseFrequency) && osc2.baseFrequency == old(osc2.baseFrequency)
      ensures osc1.phase == old(osc1.phase) && osc2.phase == old(osc2.phase)
      ensures osc1.sampleRate == old(osc1.sampleRate) && osc2.sampleRate == old(osc2.sampleRate)
      ensures osc1.gain == old(osc1.gain) && osc2.gain == old(osc2.gain)
      ensures isActive == old(isActive) && envelope == old(envelope) && filter == old(filter)
      ensures level == old(level) && baseFrequency == old(baseFrequency)
      ensures osc1On == old(osc1On) && osc2On == old(osc2On) && currentNote == old(currentNote)
    {
      osc1.SetWaveform(wave1);
      osc2.SetWaveform(wave2);
      blend := Clamp(0.0, 1.0, blendAmount);
    }

    /** updateOscOnOff. */
    method UpdateOscOnOff(o1: bool, o2: bool)
      requires Valid()
      modifies this
      ensures Valid()
      ensures osc1On == o1 && osc2On == o2
      ensures isActive == old(isActive) && envelope == old(envelope) && filter == old(filter)
      ensures level == old(level) && baseFrequency == old(baseFrequency) && blend == old(blend)
      ensures currentNote == old(currentNote)
    {
      osc1On, osc2On := o1, o2;
    }

    /** updateFM: its assignments are commented out, so it changes nothing. */
    method UpdateFM(fm1Amount: real, fm2Amount: real)
      ensures unchanged(this, osc1, osc2)
    {
    }

    /** renderNextBlock. An inactive voice returns at once. An active one
        mixes its two oscillator blocks (`o1`, `o2`, as the foreign
        oscillators render them), hands the mix to the envelope and then to
        the filter (both foreign block stages), adds the result into the
        window [startSample, startSample + numSamples) of every output
        channel, and frees itself when the envelope has become idle
        (`envelopeReachedIdle` reports the foreign envelope's progress). */
    method RenderNextBlock(output: array2<real>, startSample: nat, numSamples: nat,
                           o1: Block, o2: Block,
                           applyEnvelope: Block -> Block, applyFilter: Block -> Block,
                           envelopeReachedIdle: bool)
      requires Valid()
      requires startSample + numSamples <= output.Length1
      requires IsBlock(o1, output.Length0, numSamples) && IsBlock(o2, output.Length0, numSamples)
      requires KeepsShape(applyEnvelope) && KeepsShape(applyFilter)
      modifies this, output, osc1, osc2
      ensures Valid()
      ensures !old(isActive) ==> unchanged(this) && unchanged(output) && unchanged(osc1, osc2)
      ensures old(isActive) ==> osc1.smoother == old(osc1.smoother).Advance(numSamples)
                                && osc2.smoother == old(osc2.smoother).Advance(numSamples)
      ensures osc1.waveform == old(osc1.waveform) && osc2.waveform == old(osc2.waveform)
      ensures osc1.baseFrequency == old(osc1.baseFrequency) && osc2.baseFrequency == old(osc2.baseFrequency)
      ensures osc1.gain == old(osc1.gain) && osc2.gain == old(osc2.gain)
      ensures osc1.sampleRate == old(osc1.sampleRate) && osc2.sampleRate == old(osc2.sampleRate)
      ensures old(isActive) ==>
        var rendered := applyFilter(applyEnvelope(
          MixBlock(o1, o2, output.Length0, numSamples, osc1On, osc2On, blend, level)));
        IsBlock(rendered, output.Length0, numSamples) &&
        forall ch, j :: 0 <= ch < output.Length0 && 0 <= j < output.Length1 ==>
          output[ch, j] == if startSample <= j < startSample + numSamples
                           then old(output[ch, j]) + rendered[ch][j - startSample]
                           else old(output[ch, j])
      ensures old(isActive) ==> envelope == old(envelope).AfterBlock(envelopeReachedIdle)
                                && isActive == envelope.IsActive()
                                && currentNote == if isActive then old(currentNote) else -1
      ensures filter == old(filter) && level == old(level) && baseFrequency == old(baseFrequency)
      ensures blend == old(blend) && osc1On == old(osc1On) && osc2On == old(osc2On)
    {
      if !isActive {
        return;
      }
      var numChannels := output.Length0;
      var rendered1, rendered2 := RenderOscillators(osc1, osc2, output.Length0, numSamples, o1, o2);
      AddProcessedMix(output, startSample, numSamples, rendered1, rendered2, osc1On, osc2On, blend, level,
                      applyEnvelope, applyFilter);
      envelope := envelope.AfterBlock(envelopeReachedIdle);
      if !envelope.IsActive() {
        isActive := false;
        currentNote := -1;
      }
    }
  }
}
