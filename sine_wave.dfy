/** Model of the hand-rolled sine oscillator in Source/SineWave.cpp: one
    running time per channel, advanced by 1/sampleRate per sample; each
    sample is amplitude * sin(2*pi*frequency*t) at the time before the step. */
module SineOscillator {
  import opened Audio

  /** A channel's time after `k` samples, accumulated one increment at a
      time as the loop does. */
  function TimeAfter(t0: real, timeIncrement: real, k: nat): real
  {
    if k == 0 then t0 else TimeAfter(t0, timeIncrement, k - 1) + timeIncrement
  }

  /** The accumulated time is the start time plus k increments (float
      rounding, which makes the two differ in the plugin, is not modelled). */
  lemma {:induction false} TimeAfterIsLinear(t0: real, timeIncrement: real, k: nat)
    ensures TimeAfter(t0, timeIncrement, k) == t0 + k as real * timeIncrement
  {
    if k > 0 {
      TimeAfterIsLinear(t0, timeIncrement, k - 1);
      assert (k - 1) as real * timeIncrement + timeIncrement == k as real * timeIncrement;
    }
  }

  /** The argument of sinf at time t: 2*pi*frequency*t. */
  function Angle(frequency: real, t: real): real
  {
    TwoPi * frequency * t
  }

  /** One output sample at time t. */
  function SineSample(m: Maths, amplitude: real, frequency: real, t: real): real
  {
    amplitude * m.sin(Angle(frequency, t))
  }

  /** |output| <= amplitude whenever sin is bounded. */
  lemma {:induction false} SineSampleWithinAmplitude(m: Maths, amplitude: real, frequency: real, t: real)
    requires SinBounded(m) && 0.0 <= amplitude
    ensures -amplitude <= SineSample(m, amplitude, frequency, t) <= amplitude
  {
    var s := m.sin(Angle(frequency, t));
    assert -1.0 <= s <= 1.0;
    ScaledUnitWithin(amplitude, s);
    assert SineSample(m, amplitude, frequency, t) == amplitude * s;
  }

  /** The inner loop of process for one channel: every sample of channel
      `ch` is the sine at that channel's running time, which starts at `t0`
      and grows by one increment per sample; the other channels are left
      alone. Returns the channel's time after the block. */
  method WriteChannel(buffer: array2<real>, ch: nat, m: Maths, amplitude: real, frequency: real,
                      t0: real, timeIncrement: real) returns (t: real)
    requires ch < buffer.Length0
    modifies buffer
    ensures t == TimeAfter(t0, timeIncrement, buffer.Length1)
    ensures forall i :: 0 <= i < buffer.Length1 ==>
      buffer[ch, i] == SineSample(m, amplitude, frequency, TimeAfter(t0, timeIncrement, i))
    ensures forall c, i :: 0 <= c < buffer.Length0 && c != ch && 0 <= i < buffer.Length1 ==>
      buffer[c, i] == old(buffer[c, i])
  {
    t := t0;
    var i := 0;
    while i < buffer.Length1
      invariant 0 <= i <= buffer.Length1
      invariant t == TimeAfter(t0, timeIncrement, i)
      invariant forall k :: 0 <= k < i ==>
        buffer[ch, k] == SineSample(m, amplitude, frequency, TimeAfter(t0, timeIncrement, k))
      invariant forall c, k :: 0 <= c < buffer.Length0 && c != ch && 0 <= k < buffer.Length1 ==>
        buffer[c, k] == old(buffer[c, k])
    {
      buffer[ch, i] := amplitude * m.sin(Angle(frequency, t));
      t := t + timeIncrement;
      i := i + 1;
    }
  }

  class SineWave {
    var amplitude: real
    var frequency: real
    var currentSampleRate: real
    var timeIncrement: real
    /** One running time per channel. */
    var currentTime: seq<real>

    /** The member initialisers of Source/SineWave.h. */
    constructor ()
      ensures amplitude == 0.0 && frequency == 440.0
      ensures currentSampleRate == 0.0 && timeIncrement == 0.0 && currentTime == []
    {
      amplitude, frequency := 0.0, 440.0;
      currentSampleRate, timeIncrement := 0.0, 0.0;
      currentTime := [];
    }

    /** prepare: the sample rate and its reciprocal are stored, and the time
        vector resized to the channel count, existing times kept and new ones
        at 0. */
    method Prepare(sampleRate: real, numChannels: nat)
      requires sampleRate != 0.0
      modifies this
      ensures currentSampleRate == sampleRate && timeIncrement * sampleRate == 1.0
      ensures currentTime == Resized(old(currentTime), numChannels, 0.0)
      ensures |currentTime| == numChannels
      ensures amplitude == old(amplitude) && frequency == old(frequency)
    {
      currentSampleRate := sampleRate;
      timeIncrement := 1.0 / currentSampleRate;
      currentTime := Resized(currentTime, numChannels, 0.0);
    }

    /** setAmplitude. */
    method SetAmplitude(newAmplitude: real)
      modifies this
      ensures amplitude == newAmplitude && frequency == old(frequency)
      ensures currentSampleRate == old(currentSampleRate) && timeIncrement == old(timeIncrement)
      ensures currentTime == old(currentTime)
    {
      amplitude := newAmplitude;
    }

    /** setFrequency. */
    method SetFrequency(newFrequency: real)
      modifies this
      ensures frequency == newFrequency && amplitude == old(amplitude)
      ensures currentSampleRate == old(currentSampleRate) && timeIncrement == old(timeIncrement)
      ensures currentTime == old(currentTime)
    {
      frequency := newFrequency;
    }

    /** process: on a channel-count mismatch nothing happens at all;
        otherwise every sample of every channel is overwritten with the sine
        at that channel's time before the step, and every channel's time
        grows by numSamples increments. */
    method Process(buffer: array2<real>, m: Maths)
      modifies this, buffer
      ensures amplitude == old(amplitude) && frequency == old(frequency)
      ensures currentSampleRate == old(currentSampleRate) && timeIncrement == old(timeIncrement)
      ensures |old(currentTime)| != buffer.Length0 ==> currentTime == old(currentTime) && unchanged(buffer)
      ensures |old(currentTime)| == buffer.Length0 ==>
        |currentTime| == buffer.Length0 &&
        (forall ch :: 0 <= ch < buffer.Length0 ==>
          currentTime[ch] == TimeAfter(old(currentTime)[ch], timeIncrement, buffer.Length1)) &&
        (forall ch, i :: 0 <= ch < buffer.Length0 && 0 <= i < buffer.Length1 ==>
          buffer[ch, i] == SineSample(m, amplitude, frequency, TimeAfter(old(currentTime)[ch], timeIncrement, i)))
    {
      if |currentTime| != buffer.Length0 {
        return;
      }
      var amp, freq, inc := amplitude, frequency, timeIncrement;
      var times := currentTime;
      ghost var times0 := currentTime;
      var numSamples := buffer.Length1;
      var ch := 0;
      while ch < buffer.Length0
        modifies buffer
        invariant 0 <= ch <= buffer.Length0
        invariant |times| == |times0|
        invariant forall c :: 0 <= c < ch ==> times[c] == TimeAfter(times0[c], inc, numSamples)
        invariant forall c :: ch <= c < |times| ==> times[c] == times0[c]
        invariant forall c, k :: 0 <= c < ch && 0 <= k < numSamples ==>
          buffer[c, k] == SineSample(m, amp, freq, TimeAfter(times0[c], inc, k))
      {
        var t := WriteChannel(buffer, ch, m, amp, freq, times[ch], inc);
        times := times[ch := t];
        ch := ch + 1;
      }
      currentTime := times;
    }
  }

  /** After a matching call every channel's time has advanced by exactly
      numSamples / sampleRate, and with a bounded sine and a non-negative
      amplitude no sample exceeds the amplitude. */
  lemma {:induction false} ProcessAdvancesTime(m: Maths, amplitude: real, frequency: real, sampleRate: real,
                                               timeIncrement: real, times: seq<real>, numSamples: nat)
    requires sampleRate != 0.0 && timeIncrement == 1.0 / sampleRate
    requires SinBounded(m) && 0.0 <= amplitude
    ensures forall ch :: 0 <= ch < |times| ==>
      TimeAfter(times[ch], timeIncrement, numSamples) == times[ch] + numSamples as real / sampleRate
    ensures forall ch, i: nat :: 0 <= ch < |times| && i < numSamples ==>
      -amplitude <= SineSample(m, amplitude, frequency, TimeAfter(times[ch], timeIncrement, i)) <= amplitude
  {
    forall ch | 0 <= ch < |times|
      ensures TimeAfter(times[ch], timeIncrement, numSamples) == times[ch] + numSamples as real / sampleRate
    {
      TimeAfterIsLinear(times[ch], timeIncrement, numSamples);
      assert numSamples as real * (1.0 / sampleRate) == numSamples as real / sampleRate;
    }
    forall ch, i: nat | 0 <= ch < |times| && i < numSamples
      ensures -amplitude <= SineSample(m, amplitude, frequency, TimeAfter(times[ch], timeIncrement, i)) <= amplitude
    {
      SineSampleWithinAmplitude(m, amplitude, frequency, TimeAfter(times[ch], timeIncrement, i));
    }
  }
}
