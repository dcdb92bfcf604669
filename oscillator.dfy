/** Model of Source/Oscillator.cpp: the waveform dispatch of initWaveform, the
    closed-form shapes it hands to juce::dsp::Oscillator, and the frequency
    bookkeeping of the wrapper, including the per-sample FM loop.

    The dsp::Oscillator itself (its lookup tables, phase accumulator and
    frequency smoothing) is foreign: the wrapper's state records what was
    handed to it, and processWithFM receives its per-sample step as a value. */
module Oscillators {
  import opened Audio

  /** The shapes initWaveform can install, in the order of its switch. */
  datatype Waveform = Sine | Square | Saw | Triangle | Noise | Additive2 | Additive3

  /** The switch in initWaveform: the cases 0 to 6 each pick their own shape;
      every other index, negative ones included, falls back to the sine. */
  function WaveformOf(index: int): (w: Waveform)
    ensures w == Sine <==> (index == 0 || index < 0 || 6 < index)
    ensures w == Square <==> index == 1
    ensures w == Saw <==> index == 2
    ensures w == Triangle <==> index == 3
    ensures w == Noise <==> index == 4
    ensures w == Additive2 <==> index == 5
    ensures w == Additive3 <==> index == 6
  {
    match index
    case 0 => Sine
    case 1 => Square
    case 2 => Saw
    case 3 => Triangle
    case 4 => Noise
    case 5 => Additive2
    case 6 => Additive3
    case _ => Sine
  }

  /** The case label under which initWaveform installs a shape. */
  function IndexOf(w: Waveform): (index: nat)
    ensures index <= 6
  {
    match w
    case Sine => 0
    case Square => 1
    case Saw => 2
    case Triangle => 3
    case Noise => 4
    case Additive2 => 5
    case Additive3 => 6
  }

  /** Every shape is reachable through its own index, and the seven indices
      are told apart: the dispatch is a bijection between 0..6 and the shapes. */
  lemma {:induction false} WaveformIndexRoundTrip(w: Waveform, index: int)
    ensures WaveformOf(IndexOf(w)) == w
    ensures 0 <= index <= 6 ==> IndexOf(WaveformOf(index)) == index
  {
  }

  /** The number of table points initWaveform asks dsp::Oscillator to use. */
  function TableSize(w: Waveform): (points: nat)
    ensures points == 2 <==> w == Square
    ensures points == 256 <==> w == Noise
    ensures points == 128 <==> !(w == Square || w == Noise)
  {
    match w
    case Square => 2
    case Noise => 256
    case _ => 128
  }

  /** The square lambda. */
  function SquareShape(x: real): (r: real)
    ensures r == -1.0 || r == 1.0
    ensures r == -1.0 <==> x < 0.0
  {
    if x < 0.0 then -1.0 else 1.0
  }

  /** juce::jmap(value, sourceMin, sourceMax, targetMin, targetMax). */
  function JMap(value: real, sourceMin: real, sourceMax: real, targetMin: real, targetMax: real): real
    requires sourceMin != sourceMax
  {
    targetMin + (targetMax - targetMin) * (value - sourceMin) / (sourceMax - sourceMin)
  }

  /** The saw lambda: jmap of [-pi, pi] onto [-1, 1], which is x / pi. */
  function SawShape(x: real): (r: real)
    ensures r == x / Pi
  {
    JMap(x, -Pi, Pi, -1.0, 1.0)
  }

  /** The saw ramps from -1 at -pi to 1 at pi, monotonically, and stays in
      [-1, 1] over the period dsp::Oscillator feeds it. */
  lemma {:induction false} SawRamp(x: real, y: real)
    ensures SawShape(-Pi) == -1.0 && SawShape(Pi) == 1.0
    ensures x <= y ==> SawShape(x) <= SawShape(y)
    ensures -Pi <= x <= Pi ==> -1.0 <= SawShape(x) <= 1.0
  {
  }

  /** The lambda installed for each shape, evaluated at x. `draw` stands for
      the value juce::Random::getSystemRandom().nextFloat() returns, which only
      the noise shape uses. */
  function Shape(w: Waveform, m: Maths, draw: real, x: real): real
  {
    match w
    case Sine => m.sin(x)
    case Square => SquareShape(x)
    case Saw => SawShape(x)
    case Triangle => m.asin(m.sin(x)) * (2.0 / Pi)
    case Noise => draw * 2.0 - 1.0
    case Additive2 => m.sin(x) + 0.3 * m.sin(2.0 * x)
    case Additive3 => m.sin(x) + 0.3 * m.sin(2.0 * x) + 0.15 * m.sin(3.0 * x)
  }

  /** The largest magnitude each shape can reach. The two additive shapes are
      not normalised, so their peaks exceed 1. */
  function Peak(w: Waveform): (p: real)
    ensures p >= 1.0
    ensures p > 1.0 <==> w == Additive2 || w == Additive3
  {
    match w
    case Additive2 => 1.3
    case Additive3 => 1.45
    case _ => 1.0
  }

  ghost predicate AsinInRange(m: Maths)
  {
    forall y :: -Pi / 2.0 <= m.asin(y) <= Pi / 2.0
  }

  /** Every shape stays within its peak, given that sin is bounded by 1, that
      asin returns its principal value, and that nextFloat draws from [0, 1). */
  lemma {:induction false} ShapeWithinPeak(w: Waveform, m: Maths, draw: real, x: real)
    requires SinBounded(m) && AsinInRange(m)
    requires 0.0 <= draw < 1.0
    requires w == Saw ==> -Pi <= x <= Pi
    ensures -Peak(w) <= Shape(w, m, draw, x) <= Peak(w)
  {
    match w
    case Sine =>
      assert -1.0 <= m.sin(x) <= 1.0;
    case Square =>
    case Saw =>
      SawRamp(x, x);
    case Triangle =>
      var a := m.asin(m.sin(x));
      assert -Pi / 2.0 <= a <= Pi / 2.0;
      assert a * (2.0 / Pi) == 2.0 * a / Pi;
    case Noise =>
    case Additive2 =>
      assert -1.0 <= m.sin(x) <= 1.0 && -1.0 <= m.sin(2.0 * x) <= 1.0;
    case Additive3 =>
      assert -1.0 <= m.sin(x) <= 1.0 && -1.0 <= m.sin(2.0 * x) <= 1.0 && -1.0 <= m.sin(3.0 * x) <= 1.0;
  }

  /** The foreign per-sample step of dsp::Oscillator::processSample(0): from
      its phase and the frequency it was last given, the sample it outputs and
      the phase it moves on to. */
  type SampleEngine = (real, real) -> (real, real)

  /** The frequencies processWithFM hands the oscillator, one per sample:
      the base frequency offset by the modulator sample scaled by the depth. */
  function FmFrequencies(baseFrequency: real, fm: seq<real>, fmDepth: real, n: nat): (freqs: seq<real>)
    requires n <= |fm|
    ensures |freqs| == n
    ensures forall i :: 0 <= i < n ==> freqs[i] == baseFrequency + fm[i] * fmDepth
  {
    seq(n, i requires 0 <= i < n => baseFrequency + fm[i] * fmDepth)
  }

  /** Without modulation depth, every sample runs at the base frequency. */
  lemma {:induction false} FmWithoutDepthIsUnmodulated(baseFrequency: real, fm: seq<real>, n: nat)
    requires n <= |fm|
    ensures FmFrequencies(baseFrequency, fm, 0.0, n) == seq(n, i => baseFrequency)
  {
  }

  /** The oscillator's phase after the engine has produced one sample per
      entry of `freqs`. */
  function PhaseAfter(engine: SampleEngine, phase: real, freqs: seq<real>): real
    decreases |freqs|
  {
    if freqs == [] then phase
    else engine(PhaseAfter(engine, phase, freqs[..|freqs| - 1]), freqs[|freqs| - 1]).1
  }

  /** The sample the engine produces for entry k of `freqs`, from the phase
      the earlier entries left it in. */
  function FmSample(engine: SampleEngine, phase: real, freqs: seq<real>, k: nat): real
    requires k < |freqs|
  {
    engine(PhaseAfter(engine, phase, freqs[..k]), freqs[k]).0
  }

  lemma PhaseAfterStep(engine: SampleEngine, phase: real, freqs: seq<real>, k: nat)
    requires k < |freqs|
    ensures PhaseAfter(engine, phase, freqs[..k + 1]) == engine(PhaseAfter(engine, phase, freqs[..k]), freqs[k]).1
  {
    assert freqs[..k + 1][..k] == freqs[..k];
  }

  /** The linear juce::SmoothedValue that dsp::Oscillator keeps its frequency
      in. `countdown` is the number of steps left in the ramp under way,
      `stepsToTarget` the length of every new ramp and `step` the amount added
      per sample during a ramp. */
  datatype Smoother = Smoother(current: real, target: real, countdown: int, stepsToTarget: int, step: real)
  {
    /** At rest the smoother sits on its target; otherwise a ramp is under way. */
    predicate Valid()
    {
      0 <= countdown && (countdown == 0 ==> current == target)
    }

    predicate IsSmoothing()
    {
      0 < countdown
    }

    /** setCurrentAndTargetValue: jump to v and stop any ramp. */
    function SetCurrentAndTarget(v: real): (s: Smoother)
      ensures s.Valid() && !s.IsSmoothing()
      ensures s.current == v && s.target == v && s.stepsToTarget == stepsToTarget
    {
      this.(current := v, target := v, countdown := 0)
    }

    /** setTargetValue: a new target starts a ramp of stepsToTarget steps from
        the current value; with no ramp length it jumps, and the target it
        already has changes nothing. */
    function SetTarget(v: real): (s: Smoother)
      ensures s.target == v && s.stepsToTarget == stepsToTarget
      ensures Valid() ==> s.Valid()
      ensures v == target ==> s == this
      ensures v != target && stepsToTarget <= 0 ==> s.current == v && !s.IsSmoothing()
      ensures v != target && 0 < stepsToTarget ==>
        s.current == current && s.countdown == stepsToTarget && s.step == (v - current) / stepsToTarget as real
    {
      if v == target then this
      else if stepsToTarget <= 0 then SetCurrentAndTarget(v)
      else this.(target := v, countdown := stepsToTarget, step := (v - current) / stepsToTarget as real)
    }

    /** getNextValue: the value for the next sample, and the smoother after
        it. At rest it yields the target; during a ramp it takes one step, and
        the last step lands exactly on the target. */
    function Next(): (r: (real, Smoother))
      ensures r.1.target == target && r.1.stepsToTarget == stepsToTarget
      ensures Valid() ==> r.1.Valid()
      ensures !IsSmoothing() ==> r.0 == target && r.1 == this
      ensures IsSmoothing() ==> r.1.countdown == countdown - 1 && r.0 == r.1.current
      ensures countdown == 1 ==> r.0 == target
      ensures 1 < countdown ==> r.0 == current + step
    {
      if countdown <= 0 then (target, this)
      else if countdown - 1 > 0 then
        var s := this.(countdown := countdown - 1, current := current + step);
        (s.current, s)
      else
        (target, this.(countdown := 0, current := target))
    }

    /** reset(numSteps): a new ramp length; a ramp under way ends on its target. */
    function Reset(numSteps: int): (s: Smoother)
      ensures s.Valid() && !s.IsSmoothing()
      ensures s.current == target && s.target == target && s.stepsToTarget == numSteps
    {
      this.(stepsToTarget := numSteps).SetCurrentAndTarget(target)
    }

    /** The smoother after n calls of getNextValue. */
    function Advance(n: nat): (s: Smoother)
      ensures s.target == target && s.stepsToTarget == stepsToTarget
      ensures Valid() ==> s.Valid()
      decreases n
    {
      if n == 0 then this else Next().1.Advance(n - 1)
    }
  }

  /** The ramp length reset(sampleRate, 0.05) gives: 50 ms of samples, floored. */
  function RampSteps(sampleRate: real): int
  {
    (0.05 * sampleRate).Floor
  }

  /** Every call of getNextValue takes one step off the ramp, until it is over. */
  lemma {:induction false} AdvanceCountsDown(s: Smoother, n: nat)
    requires s.Valid()
    ensures s.Advance(n).countdown == if n <= s.countdown then s.countdown - n else 0
    decreases n
  {
    if n > 0 {
      AdvanceCountsDown(s.Next().1, n - 1);
    }
  }

  /** At rest, getNextValue changes nothing, however often it is called. */
  lemma {:induction false} AdvanceAtRest(s: Smoother, n: nat)
    requires !s.IsSmoothing()
    ensures s.Advance(n) == s
    decreases n
  {
    if n > 0 {
      AdvanceAtRest(s.Next().1, n - 1);
    }
  }

  /** A new target reached through a ramp is reached after exactly
      stepsToTarget samples: the smoother is still moving before that, and
      sits on the target from then on. */
  lemma RampReachesTarget(s: Smoother, v: real)
    requires s.Valid() && v != s.target && 0 < s.stepsToTarget
    ensures var r := s.SetTarget(v);
      && (forall k :: 0 <= k < s.stepsToTarget ==> r.Advance(k).IsSmoothing())
      && r.Advance(s.stepsToTarget).current == v
      && !r.Advance(s.stepsToTarget).IsSmoothing()
  {
    var r := s.SetTarget(v);
    forall k | 0 <= k <= s.stepsToTarget
      ensures r.Advance(k).countdown == s.stepsToTarget - k
    {
      AdvanceCountsDown(r, k);
    }
  }

  /** A forced setFrequency followed by getNextValue yields exactly the new
      frequency and leaves the smoother at rest on it. */
  lemma ForcedStepIsExact(s: Smoother, v: real)
    ensures s.SetCurrentAndTarget(v).Next() == (v, s.SetCurrentAndTarget(v))
  {
  }

  /** A smoothed setFrequency from rest, with a ramp longer than one sample,
      yields a first value only one step of the way to the new frequency. */
  lemma RampedStepFallsShort(s: Smoother, v: real)
    requires s.Valid() && !s.IsSmoothing() && 1 < s.stepsToTarget && v != s.target
    ensures s.SetTarget(v).Next().0 == s.current + (v - s.current) / s.stepsToTarget as real
    ensures s.SetTarget(v).Next().0 != v
  {
    var n := s.stepsToTarget as real;
    var d := v - s.current;
    var x := d / n;
    assert x * n == d;
    if s.current + x == v {
      assert x == d;
      calc {
        d * n;
        x * n;
        d;
      }
      if 0.0 < d {
        MultiplyStrict(1.0, n, d);
      } else {
        MultiplyStrict(1.0, n, -d);
      }
    }
  }

  /** The oscillator as the FM loop sees it: its phase and its frequency smoother. */
  datatype OscState = OscState(phase: real, smoother: Smoother)

  /** One pass of the processWithFM loop as written: setFrequency(target,
      false) asks the smoother to ramp towards target, and processSample runs
      the engine at the next smoothed frequency. */
  function FmStep(engine: SampleEngine, st: OscState, target: real): (real, OscState)
  {
    var drawn := st.smoother.SetTarget(target).Next();
    var out := engine(st.phase, drawn.0);
    (out.0, OscState(out.1, drawn.1))
  }

  /** The oscillator's state after one pass of the loop per entry of `targets`. */
  function StateAfter(engine: SampleEngine, st: OscState, targets: seq<real>): OscState
    decreases |targets|
  {
    if targets == [] then st
    else FmStep(engine, StateAfter(engine, st, targets[..|targets| - 1]), targets[|targets| - 1]).1
  }

  /** The sample the loop writes for entry k of `targets`. */
  function SmoothedFmSample(engine: SampleEngine, st: OscState, targets: seq<real>, k: nat): real
    requires k < |targets|
  {
    FmStep(engine, StateAfter(engine, st, targets[..k]), targets[k]).0
  }

  lemma StateAfterStep(engine: SampleEngine, st: OscState, targets: seq<real>, k: nat)
    requires k < |targets|
    ensures StateAfter(engine, st, targets[..k + 1]) == FmStep(engine, StateAfter(engine, st, targets[..k]), targets[k]).1
  {
    assert targets[..k + 1][..k] == targets[..k];
  }

  /** The FM loop keeps the smoother well formed and its ramp length, and
      leaves it aiming at the last frequency it was handed. */
  lemma {:induction false} FmKeepsSmoother(engine: SampleEngine, st: OscState, targets: seq<real>)
    requires st.smoother.Valid()
    ensures var r := StateAfter(engine, st, targets);
      && r.smoother.Valid() && r.smoother.stepsToTarget == st.smoother.stepsToTarget
      && (targets != [] ==> r.smoother.target == targets[|targets| - 1])
    decreases |targets|
  {
    if targets != [] {
      FmKeepsSmoother(engine, st, targets[..|targets| - 1]);
    }
  }

  /** While the smoother has no ramp length (after a prepare at a sample rate
      of 0 or below, or below 20 Hz, where floor(0.05·sampleRate) is 0), the
      smoothed loop runs the engine at exactly the requested frequencies. */
  lemma {:induction false} NoRampStateAfter(engine: SampleEngine, st: OscState, targets: seq<real>)
    requires st.smoother.Valid() && !st.smoother.IsSmoothing() && st.smoother.stepsToTarget <= 0
    ensures var r := StateAfter(engine, st, targets);
      && r.phase == PhaseAfter(engine, st.phase, targets)
      && r.smoother.Valid() && !r.smoother.IsSmoothing()
      && r.smoother.stepsToTarget == st.smoother.stepsToTarget
    decreases |targets|
  {
    if targets != [] {
      var init := targets[..|targets| - 1];
      var target := targets[|targets| - 1];
      NoRampStateAfter(engine, st, init);
      var before := StateAfter(engine, st, init);
      var drawn := before.smoother.SetTarget(target).Next();
      assert drawn.0 == target;
    }
  }

  lemma NoRampFmIsExact(engine: SampleEngine, st: OscState, targets: seq<real>)
    requires st.smoother.Valid() && !st.smoother.IsSmoothing() && st.smoother.stepsToTarget <= 0
    ensures StateAfter(engine, st, targets).phase == PhaseAfter(engine, st.phase, targets)
    ensures forall k :: 0 <= k < |targets| ==>
      SmoothedFmSample(engine, st, targets, k) == FmSample(engine, st.phase, targets, k)
  {
    NoRampStateAfter(engine, st, targets);
    forall k | 0 <= k < |targets|
      ensures SmoothedFmSample(engine, st, targets, k) == FmSample(engine, st.phase, targets, k)
    {
      NoRampStateAfter(engine, st, targets[..k]);
      var before := StateAfter(engine, st, targets[..k]);
      assert before.smoother.SetTarget(targets[k]).Next().0 == targets[k];
    }
  }

  /** The loop of processWithFM as written, on the oscillator's state as a
      value: channel 0 of `buffer` receives the smoothed samples and the
      state after the last one comes back. */
  method WriteFm(buffer: array2<real>, fm: seq<real>, fmDepth: real, baseFrequency: real,
                 engine: SampleEngine, st0: OscState)
    returns (st: OscState)
    requires buffer.Length1 <= |fm|
    requires 0 < buffer.Length1 ==> 0 < buffer.Length0
    modifies buffer
    ensures var freqs := FmFrequencies(baseFrequency, fm, fmDepth, buffer.Length1);
      && (forall i :: 0 <= i < buffer.Length1 ==> buffer[0, i] == SmoothedFmSample(engine, st0, freqs, i))
      && st == StateAfter(engine, st0, freqs)
    ensures forall ch, i :: 1 <= ch < buffer.Length0 && 0 <= i < buffer.Length1 ==> buffer[ch, i] == old(buffer[ch, i])
  {
    var numSamples := buffer.Length1;
    ghost var freqs := FmFrequencies(baseFrequency, fm, fmDepth, numSamples);
    st := st0;
    var i := 0;
    while i < numSamples
      invariant 0 <= i <= numSamples
      invariant st == StateAfter(engine, st0, freqs[..i])
      invariant forall k :: 0 <= k < i ==> buffer[0, k] == SmoothedFmSample(engine, st0, freqs, k)
      invariant forall ch, k :: 1 <= ch < buffer.Length0 && 0 <= k < numSamples ==> buffer[ch, k] == old(buffer[ch, k])
    {
      var freq := baseFrequency + fm[i] * fmDepth;
      assert freq == freqs[i];
      // setFrequency(freq, false), then processSample(0).
      var step := FmStep(engine, st, freq);
      StateAfterStep(engine, st0, freqs, i);
      buffer[0, i] := step.0;
      st := step.1;
      i := i + 1;
    }
    assert freqs[..numSamples] == freqs;
  }

  /** The same loop with the frequency forced on every sample: the samples
      are produced at exactly the requested frequencies, and the smoother
      ends at rest on the last of them. */
  method WriteForcedFm(buffer: array2<real>, fm: seq<real>, fmDepth: real, baseFrequency: real,
                       engine: SampleEngine, phase0: real, smoother0: Smoother)
    returns (phase: real, smoother: Smoother)
    requires buffer.Length1 <= |fm|
    requires 0 < buffer.Length1 ==> 0 < buffer.Length0
    modifies buffer
    ensures var freqs := FmFrequencies(baseFrequency, fm, fmDepth, buffer.Length1);
      && (forall i :: 0 <= i < buffer.Length1 ==> buffer[0, i] == FmSample(engine, phase0, freqs, i))
      && phase == PhaseAfter(engine, phase0, freqs)
      && (0 < buffer.Length1 ==> smoother.target == freqs[buffer.Length1 - 1] &&
                                 smoother.current == smoother.target && !smoother.IsSmoothing())
    ensures buffer.Length1 == 0 ==> smoother == smoother0
    ensures smoother.stepsToTarget == smoother0.stepsToTarget
    ensures forall ch, i :: 1 <= ch < buffer.Length0 && 0 <= i < buffer.Length1 ==> buffer[ch, i] == old(buffer[ch, i])
  {
    var numSamples := buffer.Length1;
    ghost var freqs := FmFrequencies(baseFrequency, fm, fmDepth, numSamples);
    phase, smoother := phase0, smoother0;
    var i := 0;
    while i < numSamples
      invariant 0 <= i <= numSamples
      invariant phase == PhaseAfter(engine, phase0, freqs[..i])
      invariant forall k :: 0 <= k < i ==> buffer[0, k] == FmSample(engine, phase0, freqs, k)
      invariant 0 < i ==> smoother.target == freqs[i - 1] && smoother.current == smoother.target && !smoother.IsSmoothing()
      invariant i == 0 ==> smoother == smoother0
      invariant smoother.stepsToTarget == smoother0.stepsToTarget
      invariant forall ch, k :: 1 <= ch < buffer.Length0 && 0 <= k < numSamples ==> buffer[ch, k] == old(buffer[ch, k])
    {
      var freq := baseFrequency + fm[i] * fmDepth;
      assert freq == freqs[i];
      // setFrequency(freq, true), then processSample(0).
      ForcedStepIsExact(smoother, freq);
      var drawn := smoother.SetCurrentAndTarget(freq).Next();
      var out := engine(phase, drawn.0);
      PhaseAfterStep(engine, phase0, freqs, i);
      assert out.1 == PhaseAfter(engine, phase0, freqs[..i + 1]);
      buffer[0, i] := out.0;
      phase, smoother := out.1, drawn.1;
      i := i + 1;
    }
    assert freqs[..numSamples] == freqs;
  }

  /** The wrapper object of Oscillator.cpp. */
  class Oscillator {
    /** The shape installed by the last initWaveform. */
    var waveform: Waveform
    /** The table size that initWaveform asked for. */
    var tableSize: nat
    /** Oscillator::baseFrequency, kept so that FM can offset it. */
    var baseFrequency: real
    /** The dsp::Oscillator's frequency smoother. */
    var smoother: Smoother
    /** The linear gain handed to dsp::Gain. */
    var gain: real
    /** The dsp::Oscillator phase; only its reset to 0 is interpreted. */
    var phase: real
    /** The ProcessSpec of the last prepare. */
    var sampleRate: real
    var maxBlockSize: int
    var numChannels: int

    /** Oscillator::Oscillator() leaves everything to prepare; the fields
        start at neutral values, the smoother at rest on the 440 Hz the
        dsp::Oscillator starts with, with no ramp length. */
    constructor ()
      ensures waveform == Sine && tableSize == TableSize(Sine) && phase == 0.0
      ensures smoother.Valid() && !smoother.IsSmoothing() && smoother.target == 440.0
      ensures smoother.stepsToTarget == 0 && sampleRate == 0.0
    {
      waveform, tableSize := Sine, TableSize(Sine);
      baseFrequency, smoother := 0.0, Smoother(440.0, 440.0, 0, 0, 0.0);
      gain, phase := 0.0, 0.0;
      sampleRate, maxBlockSize, numChannels := 0.0, 0, 0;
    }

    /** Records the spec; dsp::Oscillator::prepare resets the phase and, for
        a positive sample rate, gives the smoother a 50 ms ramp. Then the sine
        is installed and the frequency forced to 440 Hz. The base frequency is
        left as it was. */
    method Prepare(newSampleRate: real, samplesPerBlock: int, channels: int)
      modifies this
      ensures sampleRate == newSampleRate && maxBlockSize == samplesPerBlock && numChannels == channels
      ensures waveform == Sine && tableSize == TableSize(Sine) && phase == 0.0
      ensures smoother.Valid() && !smoother.IsSmoothing()
      ensures smoother.current == 440.0 && smoother.target == 440.0
      ensures smoother.stepsToTarget == if 0.0 < newSampleRate then RampSteps(newSampleRate) else old(smoother.stepsToTarget)
      ensures baseFrequency == old(baseFrequency) && gain == old(gain)
    {
      sampleRate, maxBlockSize, numChannels := newSampleRate, samplesPerBlock, channels;
      phase := 0.0;
      if 0.0 < newSampleRate {
        smoother := smoother.Reset(RampSteps(newSampleRate));
      }
      InitWaveform(0);
      smoother := smoother.SetCurrentAndTarget(440.0);
    }

    /** initWaveform / setWaveform: install the shape the index selects. */
    method InitWaveform(waveformIndex: int)
      modifies this
      ensures waveform == WaveformOf(waveformIndex) && tableSize == TableSize(waveform)
      ensures baseFrequency == old(baseFrequency) && smoother == old(smoother)
      ensures gain == old(gain) && phase == old(phase)
      ensures sampleRate == old(sampleRate) && maxBlockSize == old(maxBlockSize)
      ensures numChannels == old(numChannels)
    {
      waveform := WaveformOf(waveformIndex);
      tableSize := TableSize(waveform);
    }

    method SetWaveform(waveformIndex: int)
      modifies this
      ensures waveform == WaveformOf(waveformIndex) && tableSize == TableSize(waveform)
      ensures baseFrequency == old(baseFrequency) && smoother == old(smoother)
      ensures gain == old(gain) && phase == old(phase)
      ensures sampleRate == old(sampleRate) && maxBlockSize == old(maxBlockSize)
      ensures numChannels == old(numChannels)
    {
      InitWaveform(waveformIndex);
    }

    /** Stores the base frequency for FM and hands it on forced, so the
        smoother jumps to it; the ramp length is kept. */
    method SetFrequency(freq: real)
      modifies this
      ensures baseFrequency == freq
      ensures smoother.Valid() && !smoother.IsSmoothing()
      ensures smoother.current == freq && smoother.target == freq
      ensures smoother.stepsToTarget == old(smoother.stepsToTarget)
      ensures waveform == old(waveform) && tableSize == old(tableSize)
      ensures gain == old(gain) && phase == old(phase)
      ensures sampleRate == old(sampleRate) && maxBlockSize == old(maxBlockSize)
      ensures numChannels == old(numChannels)
    {
      baseFrequency := freq;
      smoother := smoother.SetCurrentAndTarget(freq);
    }

    method SetGain(newGain: real)
      modifies this
      ensures gain == newGain
      ensures waveform == old(waveform) && tableSize == old(tableSize)
      ensures baseFrequency == old(baseFrequency) && smoother == old(smoother)
      ensures phase == old(phase)
      ensures sampleRate == old(sampleRate) && maxBlockSize == old(maxBlockSize)
      ensures numChannels == old(numChannels)
    {
      gain := newGain;
    }

    /** dsp::Oscillator::reset: the phase goes back to zero and, once a
        sample rate is known, a ramp under way ends on its target. */
    method Reset()
      modifies this
      ensures phase == 0.0
      ensures 0.0 < sampleRate ==>
        smoother.Valid() && !smoother.IsSmoothing() && smoother.current == old(smoother.target)
      ensures 0.0 < sampleRate ==> smoother.stepsToTarget == RampSteps(sampleRate)
      ensures sampleRate <= 0.0 ==> smoother == old(smoother)
      ensures smoother.target == old(smoother.target)
      ensures waveform == old(waveform) && tableSize == old(tableSize)
      ensures baseFrequency == old(baseFrequency) && gain == old(gain)
      ensures sampleRate == old(sampleRate) && maxBlockSize == old(maxBlockSize)
      ensures numChannels == old(numChannels)
    {
      phase := 0.0;
      if 0.0 < sampleRate {
        smoother := smoother.Reset(RampSteps(sampleRate));
      }
    }

    /** process: dsp::Oscillator and dsp::Gain replace the buffer's contents
        in place. Both are foreign, so what they produce is the input
        `rendered`. The frequency smoother moves on one step per sample; the
        phase moves on in a way the model does not interpret; nothing else
        about the wrapper changes. */
    method Process(buffer: array2<real>, rendered: Block)
      requires IsBlock(rendered, buffer.Length0, buffer.Length1)
      modifies this, buffer
      ensures forall ch, i :: 0 <= ch < buffer.Length0 && 0 <= i < buffer.Length1 ==>
        buffer[ch, i] == rendered[ch][i]
      ensures smoother == old(smoother).Advance(buffer.Length1)
      ensures waveform == old(waveform) && tableSize == old(tableSize)
      ensures baseFrequency == old(baseFrequency) && gain == old(gain)
      ensures sampleRate == old(sampleRate) && maxBlockSize == old(maxBlockSize)
      ensures numChannels == old(numChannels)
    {
      forall ch, i | 0 <= ch < buffer.Length0 && 0 <= i < buffer.Length1 {
        buffer[ch, i] := rendered[ch][i];
      }
      smoother := smoother.Advance(buffer.Length1);
    }

    /** processWithFM as written: for every sample i of the buffer, hand the
        oscillator baseFrequency + fm[i] * fmDepth with force == false, which
        starts a ramp, then write the sample it produces at the next smoothed
        frequency to channel 0. Other channels, the base frequency, the shape
        and the gain are untouched. */
    method ProcessWithFM(buffer: array2<real>, fm: seq<real>, fmDepth: real, engine: SampleEngine)
      requires buffer.Length1 <= |fm|
      requires 0 < buffer.Length1 ==> 0 < buffer.Length0
      modifies this, buffer
      ensures var freqs := FmFrequencies(old(baseFrequency), fm, fmDepth, buffer.Length1);
        var st := OscState(old(phase), old(smoother));
        && (forall i :: 0 <= i < buffer.Length1 ==> buffer[0, i] == SmoothedFmSample(engine, st, freqs, i))
        && OscState(phase, smoother) == StateAfter(engine, st, freqs)
      ensures forall ch, i :: 1 <= ch < buffer.Length0 && 0 <= i < buffer.Length1 ==> buffer[ch, i] == old(buffer[ch, i])
      ensures baseFrequency == old(baseFrequency) && waveform == old(waveform)
      ensures tableSize == old(tableSize) && gain == old(gain)
      ensures sampleRate == old(sampleRate) && maxBlockSize == old(maxBlockSize)
      ensures numChannels == old(numChannels)
    {
      var st := WriteFm(buffer, fm, fmDepth, baseFrequency, engine, OscState(phase, smoother));
      phase, smoother := st.phase, st.smoother;
    }

    /** processWithFM with the frequency forced (force == true) on every
        sample, as its "no smoothing" intent asks: each sample is produced at
        exactly baseFrequency + fm[i] * fmDepth, and the smoother ends at rest
        on the last of them. */
    method ProcessWithFMForced(buffer: array2<real>, fm: seq<real>, fmDepth: real, engine: SampleEngine)
      requires buffer.Length1 <= |fm|
      requires 0 < buffer.Length1 ==> 0 < buffer.Length0
      modifies this, buffer
      ensures var freqs := FmFrequencies(old(baseFrequency), fm, fmDepth, buffer.Length1);
        && (forall i :: 0 <= i < buffer.Length1 ==> buffer[0, i] == FmSample(engine, old(phase), freqs, i))
        && phase == PhaseAfter(engine, old(phase), freqs)
        && (0 < buffer.Length1 ==> smoother.target == freqs[buffer.Length1 - 1] &&
                                   smoother.current == smoother.target && !smoother.IsSmoothing())
      ensures buffer.Length1 == 0 ==> smoother == old(smoother)
      ensures smoother.stepsToTarget == old(smoother.stepsToTarget)
      ensures forall ch, i :: 1 <= ch < buffer.Length0 && 0 <= i < buffer.Length1 ==> buffer[ch, i] == old(buffer[ch, i])
      ensures baseFrequency == old(baseFrequency) && waveform == old(waveform)
      ensures tableSize == old(tableSize) && gain == old(gain)
      ensures sampleRate == old(sampleRate) && maxBlockSize == old(maxBlockSize)
      ensures numChannels == old(numChannels)
    {
      phase, smoother := WriteForcedFm(buffer, fm, fmDepth, baseFrequency, engine, phase, smoother);
    }
  }
}
