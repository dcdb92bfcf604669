/** Shared vocabulary of the synthesiser model: blocks of samples, the foreign
    maths library, the two numeric helpers the plugin borrows from JUCE and C++
    (jlimit and the float-to-int cast), and the two whole-buffer operations that
    both voice revisions and the processor use (accumulate a block into a
    window, clear a buffer). */
module Audio {

  /** One block of audio: a sequence of samples per channel. */
  type Block = seq<seq<real>>

  /** pi as the waveform shapes use it; float rounding is not modelled. */
  const Pi: real := 3.14159265358979
  const TwoPi: real := 2.0 * Pi

  /** The transcendental functions and the MIDI note table that the plugin
      calls into. They are foreign code (libm and JUCE), so the model receives
      them as values and interprets nothing about them except where a lemma
      states an assumption explicitly. */
  datatype Maths = Maths(
    sin: real -> real,
    pow: (real, real) -> real,
    asin: real -> real,
    midiNoteInHertz: int -> real)

  /** The one fact about sin that the bound lemmas rely on. */
  ghost predicate SinBounded(m: Maths)
  {
    forall x :: -1.0 <= m.sin(x) <= 1.0
  }

  /** `b` has `channels` channels of `samples` samples each. */
  predicate IsBlock(b: Block, channels: nat, samples: nat)
  {
    |b| == channels && forall ch :: 0 <= ch < channels ==> |b[ch]| == samples
  }

  /** A foreign in-place block stage (envelope, filter) keeps the block's shape. */
  ghost predicate KeepsShape(stage: Block -> Block)
  {
    forall b: Block, channels: nat, samples: nat {:trigger IsBlock(stage(b), channels, samples)} ::
      IsBlock(b, channels, samples) ==> IsBlock(stage(b), channels, samples)
  }

  /** The contents of a buffer as a block. */
  function Snapshot(a: array2<real>): (b: Block)
    reads a
    ensures IsBlock(b, a.Length0, a.Length1)
    ensures forall ch, i :: 0 <= ch < a.Length0 && 0 <= i < a.Length1 ==> b[ch][i] == a[ch, i]
  {
    seq(a.Length0, ch reads a requires 0 <= ch < a.Length0 =>
      seq(a.Length1, i reads a requires 0 <= i < a.Length1 => a[ch, i]))
  }

  /** A buffer holding a block sample for sample has that block as its snapshot. */
  lemma SnapshotHolds(a: array2<real>, b: Block)
    requires IsBlock(b, a.Length0, a.Length1)
    requires forall ch, i :: 0 <= ch < a.Length0 && 0 <= i < a.Length1 ==> a[ch, i] == b[ch][i]
    ensures Snapshot(a) == b
  {
    var s := Snapshot(a);
    forall ch | 0 <= ch < a.Length0
      ensures s[ch] == b[ch]
    {
    }
  }

  /** juce::jlimit(lower, upper, value). */
  function Clamp(lower: real, upper: real, value: real): (r: real)
    requires lower <= upper
    ensures lower <= r <= upper
    ensures lower <= value <= upper ==> r == value
    ensures value < lower ==> r == lower
    ensures upper < value ==> r == upper
  {
    if value < lower then lower else if upper < value then upper else value
  }

  /** The C++ conversion `(int) x` of a float, which truncates toward zero. */
  function TruncateToInt(x: real): (r: int)
    ensures 0.0 <= x ==> 0 <= r && r as real <= x < r as real + 1.0
    ensures x < 0.0 ==> r <= 0 && r as real - 1.0 < x <= r as real
  {
    if 0.0 <= x then x.Floor else -((-x).Floor)
  }

  /** std::vector::resize(n, fill): the first n entries are kept, missing
      ones are appended as `fill`. */
  function Resized(s: seq<real>, n: nat, fill: real): (r: seq<real>)
    ensures |r| == n
    ensures forall i :: 0 <= i < n && i < |s| ==> r[i] == s[i]
    ensures forall i :: |s| <= i < n ==> r[i] == fill
  {
    if n <= |s| then s[..n] else s + seq(n - |s|, _ => fill)
  }

  /** Multiplying by a non-negative factor keeps an inequality. */
  lemma MultiplyMonotone(a: real, b: real, c: real)
    requires a <= b && 0.0 <= c
    ensures a * c <= b * c
  {
  }

  /** Multiplying by a positive factor keeps a strict inequality. */
  lemma MultiplyStrict(a: real, b: real, c: real)
    requires a < b && 0.0 < c
    ensures a * c < b * c
  {
    assert b * c - a * c == (b - a) * c;
  }

  /** A value in [-1, 1] scaled by a non-negative amplitude stays within
      the amplitude. */
  lemma ScaledUnitWithin(amplitude: real, s: real)
    requires -1.0 <= s <= 1.0 && 0.0 <= amplitude
    ensures -amplitude <= amplitude * s <= amplitude
  {
    MultiplyMonotone(s, 1.0, amplitude);
    MultiplyMonotone(-1.0, s, amplitude);
  }

  /** A value within a bound, scaled by a non-negative factor, stays within
      the scaled bound. */
  lemma ScaledWithin(x: real, bound: real, factor: real)
    requires -bound <= x <= bound && 0.0 <= factor
    ensures -bound * factor <= x * factor <= bound * factor
  {
    MultiplyMonotone(x, bound, factor);
    MultiplyMonotone(-bound, x, factor);
  }

  lemma AddMonotone(p: real, q: real, bigP: real, bigQ: real)
    requires p <= bigP && q <= bigQ
    ensures p + q <= bigP + bigQ
  {
  }

  /** A blend x * (1 - w) + y * w with w in [0, 1] stays within any bound
      both x and y respect. */
  lemma WeightedAverageWithin(x: real, y: real, w: real, bound: real)
    requires 0.0 <= w <= 1.0
    requires -bound <= x <= bound && -bound <= y <= bound
    ensures -bound <= x * (1.0 - w) + y * w <= bound
  {
    var v := 1.0 - w;
    MultiplyMonotone(x, bound, v);
    MultiplyMonotone(-bound, x, v);
    MultiplyMonotone(y, bound, w);
    MultiplyMonotone(-bound, y, w);
    AddMonotone(x * v, y * w, bound * v, bound * w);
    AddMonotone(-bound * v, -bound * w, x * v, y * w);
    assert bound * v + bound * w == bound;
    assert (-bound) * v + (-bound) * w == -bound;
  }

  /** What sample (ch, j) holds while `src` is being added into the window
      [start, start + n): the first `channelsDone` channels are complete, and
      channel `channelsDone` has its first `samplesDone` samples added. */
  function PartialSum(before: Block, start: nat, src: Block, n: nat,
                      channelsDone: nat, samplesDone: nat, ch: nat, j: nat): real
    requires ch < |before| && j < |before[ch]|
    requires ch < |src| && (start <= j < start + n ==> j - start < |src[ch]|)
  {
    var added := start <= j < start + n &&
                 (ch < channelsDone || (ch == channelsDone && j < start + samplesDone));
    if added then before[ch][j] + src[ch][j - start] else before[ch][j]
  }

  /** The additive copy at the end of SynthVoice::renderNextBlock: every
      channel of `src` is added onto `output` from `startSample` on; nothing
      outside that window changes (several voices share one output). */
  method AddBlock(output: array2<real>, startSample: nat, src: Block, numSamples: nat)
    requires IsBlock(src, output.Length0, numSamples)
    requires startSample + numSamples <= output.Length1
    modifies output
    ensures forall ch, j :: 0 <= ch < output.Length0 && 0 <= j < output.Length1 ==>
      output[ch, j] == if startSample <= j < startSample + numSamples
                       then old(output[ch, j]) + src[ch][j - startSample]
                       else old(output[ch, j])
  {
    ghost var before := Snapshot(output);
    var ch := 0;
    while ch < output.Length0
      invariant 0 <= ch <= output.Length0
      invariant forall c, j :: 0 <= c < output.Length0 && 0 <= j < output.Length1 ==>
        output[c, j] == PartialSum(before, startSample, src, numSamples, ch, 0, c, j)
    {
      var i := 0;
      while i < numSamples
        invariant 0 <= i <= numSamples
        invariant forall c, j :: 0 <= c < output.Length0 && 0 <= j < output.Length1 ==>
          output[c, j] == PartialSum(before, startSample, src, numSamples, ch, i, c, j)
      {
        output[ch, startSample + i] := output[ch, startSample + i] + src[ch][i];
        i := i + 1;
      }
      ch := ch + 1;
    }
  }

  /** juce::AudioBuffer::clear: every sample becomes 0. */
  method ClearBuffer(buffer: array2<real>)
    modifies buffer
    ensures forall ch, i :: 0 <= ch < buffer.Length0 && 0 <= i < buffer.Length1 ==> buffer[ch, i] == 0.0
  {
    forall ch, i | 0 <= ch < buffer.Length0 && 0 <= i < buffer.Length1 {
      buffer[ch, i] := 0.0;
    }
  }
}
