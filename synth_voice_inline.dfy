/** Model of the inline revision of the voice in Source/SynthVoice.h. It
    differs from SynthVoice.cpp: startNote does not reset the oscillators;
    updateFromParameters takes one master gain split evenly between the
    oscillators, a pitch shift in semitones shared by both, and detunes and
    "FM"-scales only oscillator 2; and the mix neither honours the on/off
    switches nor gates small samples. */
module SynthVoiceInline {
  import opened Audio
  import opened Oscillators
  import opened VoiceParts
  import Canonical = SynthVoice

  /** Oscillator 1's frequency: the note shifted by the pitch in semitones. */
  function PitchedFrequency(baseFrequency: real, pitchShiftSemis: real, m: Maths): real
  {
    baseFrequency * m.pow(2.0, pitchShiftSemis / 12.0)
  }

  /** The fmAmount parameter read as a frequency ratio, 1 + fmAmount / 10. */
  function FmRatio(fmAmount: real): (ratio: real)
    ensures 0.0 <= fmAmount <= 10.0 ==> 1.0 <= ratio <= 2.0
    ensures fmAmount == 0.0 <==> ratio == 1.0
  {
    1.0 + fmAmount * 0.1
  }

  /** Oscillator 2's frequency: oscillator 1's, detuned by cents and scaled
      by the FM ratio. */
  function DetunedFrequency(baseFrequency: real, detuneCents: real, pitchShiftSemis: real,
                            fmAmount: real, m: Maths): real
  {
    PitchedFrequency(baseFrequency, pitchShiftSemis, m) * m.pow(2.0, detuneCents / 1200.0) * FmRatio(fmAmount)
  }

  /** Without detune and without FM (and with pow(2, 0) = 1) the two
      oscillators sound in unison; each unit of fmAmount raises oscillator 2
      by a tenth of oscillator 1's detuned frequency. */
  lemma {:induction false} InlineFrequencies(baseFrequency: real, detuneCents: real, pitchShiftSemis: real,
                                             fmAmount: real, m: Maths)
    ensures DetunedFrequency(baseFrequency, 0.0, pitchShiftSemis, 0.0, m) ==
            PitchedFrequency(baseFrequency, pitchShiftSemis, m) * m.pow(2.0, 0.0)
    ensures m.pow(2.0, 0.0) == 1.0 ==>
            DetunedFrequency(baseFrequency, 0.0, pitchShiftSemis, 0.0, m) == PitchedFrequency(baseFrequency, pitchShiftSemis, m)
    ensures var detuned := PitchedFrequency(baseFrequency, pitchShiftSemis, m) * m.pow(2.0, detuneCents / 1200.0);
            DetunedFrequency(baseFrequency, detuneCents, pitchShiftSemis, fmAmount, m) == detuned + detuned * fmAmount * 0.1
  {
    assert 0.0 / 1200.0 == 0.0;
    var detuned := PitchedFrequency(baseFrequency, pitchShiftSemis, m) * m.pow(2.0, detuneCents / 1200.0);
    assert detuned * (1.0 + fmAmount * 0.1) == detuned + detuned * fmAmount * 0.1;
  }

  /** Half the master gain per oscillator. */
  function PerOscillatorGain(masterGain: real): (g: real)
    ensures g + g == masterGain
  {
    masterGain * 0.5
  }

  /** One mixed sample of this revision: blend and velocity only. */
  function InlineMixSample(s1: real, s2: real, blend: real, level: real): real
  {
    (s1 * (1.0 - blend) + s2 * blend) * level
  }

  /** This revision's mix agrees with the canonical one whenever both
      oscillators are on and neither sample is below the silence threshold,
      and always at blend 0 and 1 plays one oscillator alone, whatever the
      switches say. With oscillator 1 switched off, a full-scale sample and
      blend 0, the canonical mix is silent while this one plays it. */
  lemma {:induction false} InlineMixAgainstCanonical(s1: real, s2: real, on1: bool, on2: bool, blend: real, level: real)
    ensures !(-Canonical.SilenceThreshold < s1 < Canonical.SilenceThreshold) &&
            !(-Canonical.SilenceThreshold < s2 < Canonical.SilenceThreshold) ==>
            InlineMixSample(s1, s2, blend, level) == Canonical.MixSample(s1, s2, true, true, blend, level)
    ensures InlineMixSample(s1, s2, 0.0, level) == s1 * level
    ensures InlineMixSample(s1, s2, 1.0, level) == s2 * level
    ensures Canonical.MixSample(1.0, s2, false, on2, 0.0, 1.0) == 0.0 && InlineMixSample(1.0, s2, 0.0, 1.0) == 1.0
  {
    Canonical.MixSelects(1.0, s2, false, on2, 0.0, 1.0);
  }

  /** The whole mix buffer of this revision for one block. */
  function InlineMixBlock(o1: Block, o2: Block, channels: nat, samples: nat, blend: real, level: real): (mix: Block)
    requires IsBlock(o1, channels, samples) && IsBlock(o2, channels, samples)
    ensures IsBlock(mix, channels, samples)
    ensures forall ch, i :: 0 <= ch < channels && 0 <= i < samples ==>
      mix[ch][i] == InlineMixSample(o1[ch][i], o2[ch][i], blend, level)
  {
    seq(channels, ch requires 0 <= ch < channels =>
      seq(samples, i requires 0 <= i < samples => InlineMixSample(o1[ch][i], o2[ch][i], blend, level)))
  }

  /** The mix loop of this revision's renderNextBlock. */
  method WriteInlineMix(mix: array2<real>, o1: Block, o2: Block, blend: real, level: real)
    requires IsBlock(o1, mix.Length0, mix.Length1) && IsBlock(o2, mix.Length0, mix.Length1)
    modifies mix
    ensures Snapshot(mix) == InlineMixBlock(o1, o2, mix.Length0, mix.Length1, blend, level)
  {
    var ch := 0;
    while ch < mix.Length0
      invariant 0 <= ch <= mix.Length0
      invariant forall c, i :: 0 <= c < ch && 0 <= i < mix.Length1 ==>
        mix[c, i] == InlineMixSample(o1[c][i], o2[c][i], blend, level)
    {
      var i := 0;
      while i < mix.Length1
        invariant 0 <= i <= mix.Length1
        invariant forall c, k :: 0 <= c < ch && 0 <= k < mix.Length1 ==>
          mix[c, k] == InlineMixSample(o1[c][k], o2[c][k], blend, level)
        invariant forall k :: 0 <= k < i ==>
          mix[ch, k] == InlineMixSample(o1[ch][k], o2[ch][k], blend, level)
      {
        mix[ch, i] := (o1[ch][i] * (1.0 - blend) + o2[ch][i] * blend) * level;
        i := i + 1;
      }
      ch := ch + 1;
    }
    ghost var want := InlineMixBlock(o1, o2, mix.Length0, mix.Length1, blend, level);
    ghost var got := Snapshot(mix);
    assert forall c :: 0 <= c < mix.Length0 ==> got[c] == want[c];
  }

  /** The second half of this revision's renderNextBlock: the plain blend
      of the two oscillator blocks goes through the envelope and then the
      filter, and is added into the window [startSample, startSample +
      numSamples) of every output channel. */
  method AddProcessedInlineMix(output: array2<real>, startSample: nat, numSamples: nat, rendered1: Block, rendered2: Block,
                             blend: real, level: real,
                             applyEnvelope: Block -> Block, applyFilter: Block -> Block)
    requires startSample + numSamples <= output.Length1
    requires IsBlock(rendered1, output.Length0, numSamples) && IsBlock(rendered2, output.Length0, numSamples)
    requires KeepsShape(applyEnvelope) && KeepsShape(applyFilter)
    modifies output
    ensures var processed := applyFilter(applyEnvelope(InlineMixBlock(rendered1, rendered2, output.Length0, numSamples, blend, level)));
      IsBlock(processed, output.Length0, numSamples) &&
      forall ch, j :: 0 <= ch < output.Length0 && 0 <= j < output.Length1 ==>
        output[ch, j] == if startSample <= j < startSample + numSamples
                         then old(output[ch, j]) + processed[ch][j - startSample]
                         else old(output[ch, j])
  {
    var numChannels := output.Length0;
    var mix := new real[numChannels, numSamples];
    WriteInlineMix(mix, rendered1, rendered2, blend, level);
    var enveloped := applyEnvelope(Snapshot(mix));
    assert IsBlock(enveloped, numChannels, numSamples);
    var processed := applyFilter(enveloped);
    assert IsBlock(processed, numChannels, numSamples);
    AddBlock(output, startSample, processed, numSamples);
  }

  /** The voice of SynthVoice.h. */
  class SynthVoice {
    const osc1: Oscillator
    const osc2: Oscillator
    /** juce::ADSR together with the adsrParams it was last given. */
    var envelope: Envelope
    var filter: FilterSettings
    var baseFrequency: real
    var level: real
    var isActive: bool
    /** The parameters of the last updateFromParameters. */
    var gain: real
    var detune: real
    var pitchShift: real
    var fmAmount: real
    var blend: real
    /** Stored by updateOscOnOff but never read by this revision. */
    var osc1On: bool
    var osc2On: bool
    /** SynthesiserVoice's note claim; clearCurrentNote sets it to -1. */
    var currentNote: int

    ghost predicate Valid()
      reads this
    {
      osc1 != osc2 && 0.0 <= blend <= 1.0
    }

    /** The member initialisers of SynthVoice.h. */
    constructor ()
      ensures Valid() && fresh(osc1) && fresh(osc2)
      ensures baseFrequency == 0.0 && level == 0.0 && !isActive
      ensures gain == 0.8 && detune == 0.0 && pitchShift == 0.0 && fmAmount == 0.0
      ensures blend == 0.5 && osc1On && osc2On && currentNote == -1
      ensures !envelope.IsActive()
    {
      osc1 := new Oscillator();
      osc2 := new Oscillator();
      envelope := Envelope(AdsrParameters(0.0, 0.0, 0.0, 0.0), 0.0, Idle);
      filter := FilterSettings(0.0, 0, 0, 0.0, 0.0, Lowpass);
      baseFrequency, level, isActive := 0.0, 0.0, false;
      gain, detune, pitchShift, fmAmount := 0.8, 0.0, 0.0, 0.0;
      blend, osc1On, osc2On := 0.5, true, true;
      currentNote := -1;
    }

    /** prepare: both oscillators prepared and set to waveform 0, the
        filter's spec with lowpass, the envelope's sample rate. */
    method Prepare(sampleRate: real, samplesPerBlock: int, numChannels: int)
      requires Valid()
      modifies this, osc1, osc2
      ensures Valid()
      ensures osc1.waveform == Sine && osc2.waveform == Sine && osc1.sampleRate == sampleRate && osc2.sampleRate == sampleRate
      ensures osc1.phase == 0.0 && osc2.phase == 0.0
      ensures osc1.smoother.current == 440.0 && osc1.smoother.target == 440.0 && !osc1.smoother.IsSmoothing()
      ensures osc2.smoother.current == 440.0 && osc2.smoother.target == 440.0 && !osc2.smoother.IsSmoothing()
      ensures osc1.smoother.stepsToTarget == if 0.0 < sampleRate then RampSteps(sampleRate) else old(osc1.smoother.stepsToTarget)
      ensures osc2.smoother.stepsToTarget == if 0.0 < sampleRate then RampSteps(sampleRate) else old(osc2.smoother.stepsToTarget)
      ensures osc1.gain == old(osc1.gain) && osc2.gain == old(osc2.gain)
      ensures osc1.baseFrequency == old(osc1.baseFrequency) && osc2.baseFrequency == old(osc2.baseFrequency)
      ensures envelope == old(envelope).(sampleRate := sampleRate)
      ensures filter == PreparedFilter(old(filter), sampleRate, samplesPerBlock, numChannels)
      ensures isActive == old(isActive) && level == old(level) && baseFrequency == old(baseFrequency)
      ensures gain == old(gain) && detune == old(detune) && pitchShift == old(pitchShift) && fmAmount == old(fmAmount)
      ensures blend == old(blend) && osc1On == old(osc1On) && osc2On == old(osc2On)
      ensures currentNote == old(currentNote)
    {
      osc1.Prepare(sampleRate, samplesPerBlock, numChannels);
      osc2.Prepare(sampleRate, samplesPerBlock, numChannels);
      osc1.SetWaveform(0);
      osc2.SetWaveform(0);
      filter := PreparedFilter(filter, sampleRate, samplesPerBlock, numChannels);
      envelope := envelope.(sampleRate := sampleRate);
    }

    /** startNote: the note's frequency and velocity, the voice active and
        the envelope started. Unlike SynthVoice.cpp the oscillator phases are
        left where they were. */
    method StartNote(midiNoteNumber: int, velocity: real, m: Maths)
      requires Valid()
      modifies this
      ensures Valid()
      ensures isActive && envelope == old(envelope).NoteOn()
      ensures level == velocity && baseFrequency == m.midiNoteInHertz(midiNoteNumber)
      ensures filter == old(filter) && blend == old(blend)
      ensures gain == old(gain) && detune == old(detune) && pitchShift == old(pitchShift) && fmAmount == old(fmAmount)
      ensures osc1On == old(osc1On) && osc2On == old(osc2On) && currentNote == old(currentNote)
    {
      baseFrequency := m.midiNoteInHertz(midiNoteNumber);
      level := velocity;
      isActive := true;
      envelope := envelope.NoteOn();
    }

    /** stopNote: tail-off releases the envelope and keeps the voice as it
        was; otherwise the envelope is reset and the voice freed. */
    method StopNote(velocity: real, allowTailOff: bool)
      requires Valid()
      modifies this
      ensures Valid()
      ensures allowTailOff ==> isActive == old(isActive) && envelope == old(envelope).NoteOff()
                               && currentNote == old(currentNote)
      ensures !allowTailOff ==> !isActive && envelope == old(envelope).Reset() && currentNote == -1
      ensures filter == old(filter) && level == old(level) && baseFrequency == old(baseFrequency)
      ensures gain == old(gain) && detune == old(detune) && pitchShift == old(pitchShift) && fmAmount == old(fmAmount)
      ensures blend == old(blend) && osc1On == old(osc1On) && osc2On == old(osc2On)
    {
      if allowTailOff {
        envelope := envelope.NoteOff();
      } else {
        envelope := envelope.Reset();
        isActive := false;
        currentNote := -1;
      }
    }

    /** updateFromParameters: stores the four parameters; oscillator 1 plays
        the pitched note, oscillator 2 the pitched note detuned and scaled by
        the FM ratio; each gets half the master gain. */
    method UpdateFromParameters(masterGain: real, detuneCents: real, pitchShiftSemis: real,
                                fmAmountParam: real, m: Maths)
      requires Valid()
      modifies this, osc1, osc2
      ensures Valid()
      ensures gain == masterGain && detune == detuneCents && pitchShift == pitchShiftSemis && fmAmount == fmAmountParam
      ensures osc1.smoother.target == PitchedFrequency(baseFrequency, pitchShiftSemis, m)
      ensures osc2.smoother.target == DetunedFrequency(baseFrequency, detuneCents, pitchShiftSemis, fmAmountParam, m)
      ensures osc1.baseFrequency == osc1.smoother.target && osc2.baseFrequency == osc2.smoother.target
      ensures osc1.smoother.current == osc1.smoother.target && !osc1.smoother.IsSmoothing()
      ensures osc2.smoother.current == osc2.smoother.target && !osc2.smoother.IsSmoothing()
      ensures osc1.smoother.stepsToTarget == old(osc1.smoother.stepsToTarget)
      ensures osc2.smoother.stepsToTarget == old(osc2.smoother.stepsToTarget)
      ensures osc1.sampleRate == old(osc1.sampleRate) && osc2.sampleRate == old(osc2.sampleRate)
      ensures osc1.gain == PerOscillatorGain(masterGain) && osc2.gain == PerOscillatorGain(masterGain)
      ensures osc1.waveform == old(osc1.waveform) && osc2.waveform == old(osc2.waveform)
      ensures osc1.phase == old(osc1.phase) && osc2.phase == old(osc2.phase)
      ensures isActive == old(isActive) && envelope == old(envelope) && filter == old(filter)
      ensures level == old(level) && baseFrequency == old(baseFrequency) && blend == old(blend)
      ensures osc1On == old(osc1On) && osc2On == old(osc2On) && currentNote == old(currentNote)
    {
      gain, detune, pitchShift, fmAmount := masterGain, detuneCents, pitchShiftSemis, fmAmountParam;
      var pitchFactor := m.pow(2.0, pitchShiftSemis / 12.0);
      var pitchedFreq := baseFrequency * pitchFactor;
      var osc1Freq := pitchedFreq;
      var detuneRatio := m.pow(2.0, detuneCents / 1200.0);
      var fmRatio := 1.0 + fmAmountParam * 0.1;
      var osc2Freq := pitchedFreq * detuneRatio * fmRatio;
      assert osc1Freq == PitchedFrequency(baseFrequency, pitchShiftSemis, m);
      assert osc2Freq == DetunedFrequency(baseFrequency, detuneCents, pitchShiftSemis, fmAmountParam, m);
      osc1.SetFrequency(osc1Freq);
      osc2.SetFrequency(osc2Freq);
      var perOscGain := masterGain * 0.5;
      osc1.SetGain(perOscGain);
      osc2.SetGain(perOscGain);
    }

    /** renderNextBlock of this revision: as in SynthVoice.cpp an inactive
        voice does nothing and an active one adds its processed block into
        the window [startSample, startSample + numSamples) only; the mix is
        the plain blend scaled by velocity. */
    method RenderNextBlock(output: array2<real>, startSample: nat, numSamples: nat,
                           o1: Block, o2: Block,
                           applyEnvelope: Block -> Block, applyFilter: Block -> Block,
                           envelopeReachedIdle: bool)
      requires Valid()
      requires startSample + numSamples <= output.Length1
      requires IsBlock(o1, output.Length0, numSamples) && IsBlock(o2, output.Length0, numSamples)
      requires KeepsShape(applyEnvelope) && KeepsShape(applyFilter)
      modifies this, output, osc1, osc2
      ensures Valid()
      ensures !old(isActive) ==> unchanged(this) && unchanged(output) && unchanged(osc1, osc2)
      ensures old(isActive) ==> osc1.smoother == old(osc1.smoother).Advance(numSamples)
                                && osc2.smoother == old(osc2.smoother).Advance(numSamples)
      ensures osc1.waveform == old(osc1.waveform) && osc2.waveform == old(osc2.waveform)
      ensures osc1.baseFrequency == old(osc1.baseFrequency) && osc2.baseFrequency == old(osc2.baseFrequency)
      ensures osc1.gain == old(osc1.gain) && osc2.gain == old(osc2.gain)
      ensures osc1.sampleRate == old(osc1.sampleRate) && osc2.sampleRate == old(osc2.sampleRate)
      ensures old(isActive) ==>
        var rendered := applyFilter(applyEnvelope(
          InlineMixBlock(o1, o2, output.Length0, numSamples, blend, level)));
        IsBlock(rendered, output.Length0, numSamples) &&
        forall ch, j :: 0 <= ch < output.Length0 && 0 <= j < output.Length1 ==>
          output[ch, j] == if startSample <= j < startSample + numSamples
                           then old(output[ch, j]) + rendered[ch][j - startSample]
                           else old(output[ch, j])
      ensures old(isActive) ==> envelope == old(envelope).AfterBlock(envelopeReachedIdle)
                                && isActive == envelope.IsActive()
                                && currentNote == if isActive then old(currentNote) else -1
      ensures filter == old(filter) && level == old(level) && baseFrequency == old(baseFrequency)
      ensures gain == old(gain) && detune == old(detune) && pitchShift == old(pitchShift) && fmAmount == old(fmAmount)
      ensures blend == old(blend) && osc1On == old(osc1On) && osc2On == old(osc2On)
    {
      if !isActive {
        return;
      }
      var numChannels := output.Length0;
      var rendered1, rendered2 := Canonical.RenderOscillators(osc1, osc2, output.Length0, numSamples, o1, o2);
      AddProcessedInlineMix(output, startSample, numSamples, rendered1, rendered2, blend, level,
                            applyEnvelope, applyFilter);
      envelope := envelope.AfterBlock(envelopeReachedIdle);
      if !envelope.IsActive() {
        isActive := false;
        currentNote := -1;
      }
    }

    /** updateEnvelope. */
    method UpdateEnvelope(attack: real, decay: real, sustain: real, release: real)
      requires Valid()
      modifies this
      ensures Valid()
      ensures envelope == old(envelope).(parameters := AdsrParameters(attack, decay, sustain, release))
      ensures gain == old(gain) && detune == old(detune) && pitchShift == old(pitchShift) && fmAmount == old(fmAmount)
      ensures isActive == old(isActive) && filter == old(filter) && level == old(level)
      ensures baseFrequency == old(baseFrequency) && blend == old(blend)
      ensures osc1On == old(osc1On) && osc2On == old(osc2On) && currentNote == old(currentNote)
    {
      envelope := envelope.(parameters := AdsrParameters(attack, decay, sustain, release));
    }

    /** updateFilter. */
    method UpdateFilter(cutoff: real, resonance: real, typeIndex: int)
      requires Valid()
      modifies this
      ensures Valid()
      ensures filter == UpdatedFilter(old(filter), cutoff, resonance, typeIndex)
      ensures gain == old(gain) && detune == old(detune) && pitchShift == old(pitchShift) && fmAmount == old(fmAmount)
      ensures isActive == old(isActive) && envelope == old(envelope) && level == old(level)
      ensures baseFrequency == old(baseFrequency) && blend == old(blend)
      ensures osc1On == old(osc1On) && osc2On == old(osc2On) && currentNote == old(currentNote)
    {
      filter := UpdatedFilter(filter, cutoff, resonance, typeIndex);
    }

    /** updateOscillators: shapes from the indices, blend clamped into [0, 1]. */
    method UpdateOscillators(wave1: int, wave2: int, blendAmount: real)
      requires Valid()
      modifies this, osc1, osc2
      ensures Valid()
      ensures osc1.waveform == WaveformOf(wave1) && osc2.waveform == WaveformOf(wave2)
      ensures blend == Clamp(0.0, 1.0, blendAmount)
      ensures osc1.smoother == old(osc1.smoother) && osc2.smoother == old(osc2.smoother)
      ensures osc1.baseFrequency == old(osc1.baseFrequency) && osc2.baseFrequency == old(osc2.baseFrequency)
      ensures osc1.phase == old(osc1.phase) && osc2.phase == old(osc2.phase)
      ensures osc1.sampleRate == old(osc1.sampleRate) && osc2.sampleRate == old(osc2.sampleRate)
      ensures osc1.gain == old(osc1.gain) && osc2.gain == old(osc2.gain)
      ensures isActive == old(isActive) && envelope == old(envelope) && filter == old(filter)
      ensures level == old(level) && baseFrequency == old(baseFrequency)
      ensures gain == old(gain) && detune == old(detune) && pitchShift == old(pitchShift) && fmAmount == old(fmAmount)
      ensures osc1On == old(osc1On) && osc2On == old(osc2On) && currentNote == old(currentNote)
    {
      osc1.SetWaveform(wave1);
      osc2.SetWaveform(wave2);
      blend := Clamp(0.0, 1.0, blendAmount);
    }

    /** updateOscOnOff: the switches are stored (the render ignores them). */
    method UpdateOscOnOff(o1: bool, o2: bool)
      requires Valid()
      modifies this
      ensures Valid()
      ensures osc1On == o1 && osc2On == o2
      ensures gain == old(gain) && detune == old(detune) && pitchShift == old(pitchShift) && fmAmount == old(fmAmount)
      ensures isActive == old(isActive) && envelope == old(envelope) && filter == old(filter)
      ensures level == old(level) && baseFrequency == old(baseFrequency) && blend == old(blend)
      ensures currentNote == old(currentNote)
    {
      osc1On, osc2On := o1, o2;
    }
  }
}
