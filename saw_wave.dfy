/** Model of the hand-rolled saw oscillator in Source/SawWave.cpp: one phase
    accumulator per channel, advanced by 2*pi*f/sampleRate per sample and
    wrapped back into [0, 2*pi) by a single subtraction. Despite its name the
    class outputs amplitude * sin(phase).

    The frequency comes from a juce::SmoothedValue, which is foreign: the
    values its getNextValue() hands out during one call of process are an
    input, `freqs[ch][i]` being the value drawn for sample i of channel ch
    (one stream, consumed channel by channel). */
module SawOscillator {
  import opened Audio

  /** The per-sample phase increment for frequency f. */
  function Increment(f: real, sampleRate: real): real
    requires sampleRate > 0.0
  {
    TwoPi * f / sampleRate
  }

  /** The increment stays below one cycle exactly when the frequency is below
      the sample rate, and is non-negative exactly when the frequency is. */
  lemma {:induction false} IncrementBelowCycle(f: real, sampleRate: real)
    requires sampleRate > 0.0
    ensures Increment(f, sampleRate) < TwoPi <==> f < sampleRate
    ensures 0.0 <= Increment(f, sampleRate) <==> 0.0 <= f
  {
    ScaledRatio(TwoPi, f, sampleRate);
  }

  /** k * f / d compared with k and with 0, for positive k and d. */
  lemma ScaledRatio(k: real, f: real, d: real)
    requires 0.0 < k && 0.0 < d
    ensures k * f / d < k <==> f < d
    ensures 0.0 <= k * f / d <==> 0.0 <= f
  {
    var r := k * f / d;
    assert r * d == k * f;
    if f < d {
      MultiplyStrict(f, d, k);
      if k <= r {
        MultiplyMonotone(k, r, d);
        assert false;
      }
    }
    if r < k {
      MultiplyStrict(r, k, d);
      if d <= f {
        MultiplyMonotone(d, f, k);
        assert false;
      }
    }
    if 0.0 <= f {
      MultiplyMonotone(0.0, f, k);
      if r < 0.0 {
        MultiplyStrict(r, 0.0, d);
        assert false;
      }
    }
    if 0.0 <= r {
      MultiplyMonotone(0.0, r, d);
      if f < 0.0 {
        MultiplyStrict(f, 0.0, k);
        assert false;
      }
    }
  }

  /** One step of the accumulator: add the increment, subtract one cycle if
      the sum reached it. A phase in [0, 2*pi) advanced by an increment in
      [0, 2*pi) stays in [0, 2*pi). */
  function Advance(phase: real, inc: real): (next: real)
    ensures next == phase + inc || next == phase + inc - TwoPi
    ensures next < TwoPi <==> phase + inc < 2.0 * TwoPi
    ensures 0.0 <= phase < TwoPi && 0.0 <= inc < TwoPi ==> 0.0 <= next < TwoPi
  {
    var p := phase + inc;
    if p >= TwoPi then p - TwoPi else p
  }

  /** The phase after the samples whose frequencies are `freqs`. */
  function PhaseAfter(phase: real, sampleRate: real, freqs: seq<real>): real
    requires sampleRate > 0.0
  {
    if |freqs| == 0 then phase
    else Advance(PhaseAfter(phase, sampleRate, freqs[..|freqs| - 1]), Increment(freqs[|freqs| - 1], sampleRate))
  }

  /** With every frequency in [0, sampleRate) a phase that starts in
      [0, 2*pi) never leaves it. */
  lemma {:induction false} PhaseStaysInCycle(phase: real, sampleRate: real, freqs: seq<real>)
    requires sampleRate > 0.0
    requires 0.0 <= phase < TwoPi
    requires forall k :: 0 <= k < |freqs| ==> 0.0 <= freqs[k] < sampleRate
    ensures 0.0 <= PhaseAfter(phase, sampleRate, freqs) < TwoPi
  {
    if |freqs| > 0 {
      var last := |freqs| - 1;
      PhaseStaysInCycle(phase, sampleRate, freqs[..last]);
      IncrementBelowCycle(freqs[last], sampleRate);
    }
  }

  /** One output sample: the amplitude times the sine of the phase before
      the step. */
  function SawSample(m: Maths, amplitude: real, phase: real): real
  {
    amplitude * m.sin(phase)
  }

  /** |output| <= amplitude for a non-negative amplitude. */
  lemma {:induction false} SawSampleWithinAmplitude(m: Maths, amplitude: real, phase: real)
    requires SinBounded(m) && 0.0 <= amplitude
    ensures -amplitude <= SawSample(m, amplitude, phase) <= amplitude
  {
    var s := m.sin(phase);
    assert -1.0 <= s <= 1.0;
    ScaledUnitWithin(amplitude, s);
    assert SawSample(m, amplitude, phase) == amplitude * s;
  }

  /** Sample i of a channel whose phase was `phase0` and whose drawn
      frequencies are `freqs`. */
  function ChannelSample(m: Maths, amplitude: real, sampleRate: real, phase0: real,
                         freqs: seq<real>, i: nat): real
    requires sampleRate > 0.0 && i <= |freqs|
  {
    SawSample(m, amplitude, PhaseAfter(phase0, sampleRate, freqs[..i]))
  }

  /** The phase after one more sample. */
  lemma {:induction false} PhaseAfterStep(phase: real, sampleRate: real, freqs: seq<real>, i: nat)
    requires sampleRate > 0.0 && i < |freqs|
    ensures PhaseAfter(phase, sampleRate, freqs[..i + 1]) ==
            Advance(PhaseAfter(phase, sampleRate, freqs[..i]), Increment(freqs[i], sampleRate))
  {
    assert freqs[..i + 1][..i] == freqs[..i];
  }

  /** The inner loop of process for one channel: every sample of channel
      `ch` is the amplitude times the sine of the channel's phase before the
      step, the phase advancing over the drawn frequencies; the other
      channels are left alone. Returns the channel's phase after the block. */
  method WriteChannel(buffer: array2<real>, ch: nat, m: Maths, amplitude: real, sampleRate: real,
                      phase0: real, freqs: seq<real>) returns (phase: real)
    requires sampleRate > 0.0
    requires ch < buffer.Length0 && |freqs| == buffer.Length1
    modifies buffer
    ensures phase == PhaseAfter(phase0, sampleRate, freqs)
    ensures forall i :: 0 <= i < buffer.Length1 ==>
      buffer[ch, i] == ChannelSample(m, amplitude, sampleRate, phase0, freqs, i)
    ensures forall c, i :: 0 <= c < buffer.Length0 && c != ch && 0 <= i < buffer.Length1 ==>
      buffer[c, i] == old(buffer[c, i])
  {
    phase := phase0;
    var i := 0;
    while i < buffer.Length1
      invariant 0 <= i <= buffer.Length1
      invariant phase == PhaseAfter(phase0, sampleRate, freqs[..i])
      invariant forall k :: 0 <= k < i ==>
        buffer[ch, k] == ChannelSample(m, amplitude, sampleRate, phase0, freqs, k)
      invariant forall c, k :: 0 <= c < buffer.Length0 && c != ch && 0 <= k < buffer.Length1 ==>
        buffer[c, k] == old(buffer[c, k])
    {
      var frequency := freqs[i];
      var phaseInc := TwoPi * frequency / sampleRate;
      buffer[ch, i] := amplitude * m.sin(phase);
      PhaseAfterStep(phase0, sampleRate, freqs, i);
      phase := phase + phaseInc;
      if phase >= TwoPi {
        phase := phase - TwoPi;
      }
      i := i + 1;
    }
    assert freqs[..buffer.Length1] == freqs;
  }

  class SawWave {
    /** One phase per channel. */
    var phases: seq<real>
    var amplitude: real
    var sampleRate: real

    /** The member initialisers of UNUSED/SawWave.h. */
    constructor ()
      ensures phases == [] && amplitude == 0.5 && sampleRate == 0.0
    {
      phases := [];
      amplitude := 0.5;
      sampleRate := 0.0;
    }

    /** prepare: the sample rate is stored and the phase vector resized to the
        channel count, existing phases kept and new ones at 0. */
    method Prepare(currentSampleRate: real, numChannels: nat)
      modifies this
      ensures sampleRate == currentSampleRate && amplitude == old(amplitude)
      ensures phases == Resized(old(phases), numChannels, 0.0)
      ensures |phases| == numChannels
    {
      sampleRate := currentSampleRate;
      phases := Resized(phases, numChannels, 0.0);
    }

    /** setAmplitude. */
    method SetAmplitude(newAmplitude: real)
      modifies this
      ensures amplitude == newAmplitude && phases == old(phases) && sampleRate == old(sampleRate)
    {
      amplitude := newAmplitude;
    }

    /** process: every sample of every channel is overwritten with
        amplitude * sin(phase) taken before the step, and each channel's phase
        ends advanced over that channel's frequencies; no channel touches
        another's phase. The three asserts of the source are the
        preconditions. */
    method Process(buffer: array2<real>, freqs: Block, m: Maths)
      requires sampleRate > 0.0
      requires 0.0 <= amplitude <= 1.0
      requires |phases| == buffer.Length0
      requires IsBlock(freqs, buffer.Length0, buffer.Length1)
      modifies this, buffer
      ensures amplitude == old(amplitude) && sampleRate == old(sampleRate)
      ensures |phases| == |old(phases)|
      ensures forall ch :: 0 <= ch < |phases| ==>
        phases[ch] == PhaseAfter(old(phases)[ch], sampleRate, freqs[ch])
      ensures forall ch, i :: 0 <= ch < buffer.Length0 && 0 <= i < buffer.Length1 ==>
        buffer[ch, i] == ChannelSample(m, amplitude, sampleRate, old(phases)[ch], freqs[ch], i)
    {
      var amp := amplitude;
      var sr := sampleRate;
      var ph := phases;
      ghost var phases0 := phases;
      var numSamples := buffer.Length1;
      var ch := 0;
      while ch < buffer.Length0
        modifies buffer
        invariant 0 <= ch <= buffer.Length0
        invariant |ph| == |phases0|
        invariant forall c :: 0 <= c < ch ==> ph[c] == PhaseAfter(phases0[c], sr, freqs[c])
        invariant forall c :: ch <= c < |ph| ==> ph[c] == phases0[c]
        invariant forall c, k :: 0 <= c < ch && 0 <= k < numSamples ==>
          buffer[c, k] == ChannelSample(m, amp, sr, phases0[c], freqs[c], k)
      {
        var phase := WriteChannel(buffer, ch, m, amp, sr, ph[ch], freqs[ch]);
        ph := ph[ch := phase];
        ch := ch + 1;
      }
      phases := ph;
    }
  }

  /** The promise of process as one statement: after a call on phases in
      [0, 2*pi) with every drawn frequency in [0, sampleRate) and a
      bounded sine, every phase is still in [0, 2*pi) and every sample lies
      within the amplitude. */
  lemma {:induction false} ProcessKeepsPhasesAndLevel(m: Maths, amplitude: real, sampleRate: real,
                                                      phases: seq<real>, freqs: Block, numSamples: nat)
    requires sampleRate > 0.0 && 0.0 <= amplitude <= 1.0 && SinBounded(m)
    requires IsBlock(freqs, |phases|, numSamples)
    requires forall ch :: 0 <= ch < |phases| ==> 0.0 <= phases[ch] < TwoPi
    requires forall ch, i :: 0 <= ch < |phases| && 0 <= i < numSamples ==> 0.0 <= freqs[ch][i] < sampleRate
    ensures forall ch :: 0 <= ch < |phases| ==> 0.0 <= PhaseAfter(phases[ch], sampleRate, freqs[ch]) < TwoPi
    ensures forall ch, i :: 0 <= ch < |phases| && 0 <= i < numSamples ==>
      -amplitude <= ChannelSample(m, amplitude, sampleRate, phases[ch], freqs[ch], i) <= amplitude
  {
    forall ch | 0 <= ch < |phases|
      ensures 0.0 <= PhaseAfter(phases[ch], sampleRate, freqs[ch]) < TwoPi
    {
      PhaseStaysInCycle(phases[ch], sampleRate, freqs[ch]);
    }
    forall ch, i | 0 <= ch < |phases| && 0 <= i < numSamples
      ensures -amplitude <= ChannelSample(m, amplitude, sampleRate, phases[ch], freqs[ch], i) <= amplitude
    {
      SawSampleWithinAmplitude(m, amplitude, PhaseAfter(phases[ch], sampleRate, freqs[ch][..i]));
    }
  }
}
