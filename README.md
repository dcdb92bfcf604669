# EFFEM unit synthesiser, modelled in Dafny

This project models the logic of a small JUCE synthesiser plugin: a
polyphonic voice with two oscillators, a wrapper around the JUCE
`dsp::Oscillator`, two hand-rolled oscillators (a phase-accumulating "saw"
and a time-accumulating sine), and the processor's block and layout logic.

Samples are `real`. Buffers that the plugin updates in place are
`array2<real>`, indexed `[channel, sample]`. Blocks handed between stages
are `seq<seq<real>>`.

The plugin leans on foreign code: libm, `juce::MidiMessage`, `dsp::Oscillator`,
`dsp::Gain`, `juce::ADSR`, `StateVariableTPTFilter` and `SmoothedValue`. The
model receives most of that code as values:
- `sin`, `pow`, `asin` and the MIDI note table are uninterpreted functions in
  a `Maths` record. A lemma that needs a fact about them (|sin| <= 1,
  pow(2, 0) = 1) takes it as a precondition.
- What `dsp::Oscillator` renders into a block is an input block.
- The envelope and the filter are functions from block to block that keep
  the block's shape.
- Whether the envelope finished during a block is an input flag.
- The values the saw oscillator's `SmoothedValue` hands out are an input stream.

The exception is the linear `SmoothedValue` that `dsp::Oscillator` keeps its
frequency in. Whether a frequency change jumps or ramps decides what the FM
loop plays, so that smoother is modelled step by step (`Oscillators.Smoother`).

Modules, one per source file:
- `Audio`: blocks, `jlimit`, the float-to-int cast, `std::vector::resize`,
  buffer clearing, and the additive copy into a window of the output.
- `Oscillators`: Source/Oscillator.cpp.
- `VoiceParts`: the sound tag of Source/SynthSound.h and the views of the
  ADSR and the filter that both voices share.
- `SynthVoice`: Source/SynthVoice.cpp, the canonical voice.
- `SynthVoiceInline`: the inline revision in Source/SynthVoice.h, kept apart
  from the canonical one.
- `SawOscillator`: Source/SawWave.cpp.
- `SineOscillator`: Source/SineWave.cpp.
- `PluginProcessor`: Source/PluginProcessor.cpp.

## Model

| member | source | states |
|---|---|---|
| Audio.Clamp | Source/SynthVoice.cpp:91 | jlimit: the result lies in [lower, upper]; a value inside is returned unchanged; a value outside is replaced by the bound it crosses |
| Audio.TruncateToInt | Source/SynthVoice.cpp:76-77 | The C++ `(int)` cast truncates toward zero: for x >= 0, r <= x < r + 1; for x < 0, r - 1 < x <= r |
| Audio.Resized | Source/SawWave.cpp:9 | `resize(n, fill)` yields exactly n entries; entries that existed keep their values; new entries are `fill` |
| Audio.AddBlock | Source/SynthVoice.cpp:190-197 | Inside [startSample, startSample + numSamples) each output sample gains the block's sample; every other output sample is unchanged |
| Audio.ClearBuffer | Source/PluginProcessor.cpp:145 | Every sample of the buffer becomes 0 |
| Oscillators.WaveformOf | Source/Oscillator.cpp:52-111 | Indices 0 to 6 each select their own shape, in both directions of the iff; every other index, negative ones included, falls back to the sine |
| Oscillators.WaveformIndexRoundTrip | Source/Oscillator.cpp:54-110 | The dispatch is a bijection between the indices 0..6 and the seven shapes |
| Oscillators.TableSize | Source/Oscillator.cpp:52-111 | The square uses 2 table points, noise 256, every other shape 128 |
| Oscillators.SquareShape | Source/Oscillator.cpp:61-64 | The output is -1 or +1, and it is -1 exactly when x < 0 |
| Oscillators.SawShape | Source/Oscillator.cpp:67-75 | The jmap of [-pi, pi] onto [-1, 1] is x / pi |
| Oscillators.SawRamp | Source/Oscillator.cpp:67-75 | The saw sends -pi to -1 and pi to 1, is monotone, and stays in [-1, 1] over [-pi, pi] |
| Oscillators.Peak | Source/Oscillator.cpp:91-105 | Every peak is at least 1; only the two additive shapes exceed 1 |
| Oscillators.ShapeWithinPeak | Source/Oscillator.cpp:52-111 | With |sin| <= 1, the principal asin and a noise draw in [0, 1), every shape stays within its peak: 1 for sine, square, saw, triangle and noise, 1.3 for index 5, 1.45 for index 6 |
| Oscillators.FmFrequencies | Source/Oscillator.cpp:119-124 | Sample i runs at baseFrequency + fm[i] * fmDepth, one frequency per sample |
| Oscillators.FmWithoutDepthIsUnmodulated | Source/Oscillator.cpp:122 | With depth 0 every sample runs at the base frequency |
| Oscillators.Smoother.SetCurrentAndTarget | Source/Oscillator.cpp:33 | A forced frequency change: the smoother sits at rest on the new value, with its ramp length kept |
| Oscillators.Smoother.SetTarget | Source/Oscillator.cpp:124 | An unforced change to a new value starts a ramp of stepsToTarget steps from the current value, with step (v - current) / stepsToTarget. With no ramp length it jumps. The value it already aims at changes nothing |
| Oscillators.Smoother.Next | Source/Oscillator.cpp:126 | At rest it yields the target and stays put. During a ramp it counts down one step and yields the new current value. The last step yields exactly the target |
| Oscillators.Smoother.Reset | Source/Oscillator.cpp:46-50 | A new ramp length; a ramp under way ends at once on its target |
| Oscillators.Smoother.Advance | Source/Oscillator.cpp:26 | Any number of steps keeps the target, the ramp length and well-formedness |
| Oscillators.AdvanceCountsDown | Source/Oscillator.cpp:26 | After n steps the countdown is max(countdown - n, 0) |
| Oscillators.AdvanceAtRest | Source/Oscillator.cpp:26 | A smoother at rest is unchanged by any number of steps |
| Oscillators.RampReachesTarget | Source/Oscillator.cpp:124-126 | After an unforced change, the smoother is still moving for the first stepsToTarget - 1 steps, and after exactly stepsToTarget steps it rests on the new value |
| Oscillators.ForcedStepIsExact | Source/Oscillator.cpp:33 | After a forced change the next value drawn is exactly the new frequency, and the smoother stays at rest on it |
| Oscillators.RampedStepFallsShort | Source/Oscillator.cpp:124-126 | From rest with a ramp longer than one step, an unforced change draws current + (v - current) / stepsToTarget first, which is not v |
| Oscillators.FmKeepsSmoother | Source/Oscillator.cpp:119-128 | The FM loop keeps the smoother well formed and its ramp length, and leaves it aiming at the last FM frequency |
| Oscillators.NoRampFmIsExact | Source/Oscillator.cpp:119-128 | While the smoother has no ramp length (after a prepare at a sample rate of 0 or below, or below 20 Hz, where floor(0.05·sampleRate) is 0), the loop as written plays exactly the unsmoothed FM samples and phase |
| Oscillators.WriteFm | Source/Oscillator.cpp:119-128 | The loop as written: sample i of channel 0 is the engine's output at the smoothed frequency after asking for a ramp to FM frequency i; the returned state is the state after all samples; other channels are unchanged |
| Oscillators.WriteForcedFm | Source/Oscillator.cpp:119-128 | The loop with forced changes: sample i of channel 0 is the engine's output at exactly FM frequency i; the smoother ends at rest on the last one; other channels are unchanged |
| Oscillators.Oscillator.constructor | Source/Oscillator.cpp:3 | Oscillator() sets nothing. The sine is a placeholder until prepare installs it. The phase is zero and the smoother rests on dsp::Oscillator's initial 440 Hz, with no ramp length; the wrapper's spec has no sample rate |
| Oscillators.Oscillator.Prepare | Source/Oscillator.cpp:5-19 | Records the spec, resets the phase, and gives the smoother floor(0.05·sampleRate) ramp steps for a positive rate. Then it installs the sine and forces 440 Hz, so the smoother rests on 440. The base frequency and the gain are unchanged |
| Oscillators.Oscillator.InitWaveform | Source/Oscillator.cpp:52-111 | Installs the shape the index selects, with its table size; all other state is unchanged |
| Oscillators.Oscillator.SetWaveform | Source/Oscillator.cpp:41-44 | Same effect as initWaveform |
| Oscillators.Oscillator.SetFrequency | Source/Oscillator.cpp:30-34 | Records baseFrequency = freq. The forced call leaves the smoother at rest on freq, with its ramp length kept. All other state is unchanged |
| Oscillators.Oscillator.SetGain | Source/Oscillator.cpp:36-39 | Only the gain changes |
| Oscillators.Oscillator.Reset | Source/Oscillator.cpp:46-50 | The phase goes to 0. Once a sample rate is known, a ramp under way ends on its target and the ramp length is set again. The target and all other state are unchanged |
| Oscillators.Oscillator.Process | Source/Oscillator.cpp:21-28 | The buffer holds what the oscillator adds to the cleared buffer, times the gain. The smoother takes one step per sample. Shape, base frequency and gain are unchanged |
| Oscillators.Oscillator.ProcessWithFM | Source/Oscillator.cpp:113-129 | As written: for each sample the smoother is asked to ramp to baseFrequency + fm[i]·fmDepth, and the engine runs at the next smoothed value. Channel 0, the phase and the smoother end as StateAfter says. Other channels, the base frequency, the shape and the gain are unchanged |
| Oscillators.Oscillator.ProcessWithFMForced | Source/Oscillator.cpp:113-129 | With the change forced, as the comment at line 124 intends: sample i of channel 0 is produced at exactly baseFrequency + fm[i]·fmDepth, and the smoother ends at rest on the last one |
| VoiceParts.CanPlaySound | Source/SynthVoice.cpp:8-11 | A sound is accepted iff it is a SynthSound (the inline revision, Source/SynthVoice.h:19-22, has the same body) |
| VoiceParts.Envelope.NoteOn | Source/SynthVoice.cpp:40 | After noteOn the envelope is active; its parameters and sample rate are unchanged |
| VoiceParts.Envelope.NoteOff | Source/SynthVoice.cpp:47 | For a positive release time, noteOff keeps an active envelope active and moves it into its release; an idle envelope stays idle |
| VoiceParts.Envelope.Reset | Source/SynthVoice.cpp:50 | After reset the envelope is inactive |
| VoiceParts.Envelope.AfterBlock | Source/SynthVoice.cpp:199 | After a block the envelope is active iff it was active and did not finish its release during the block. Only the release stage can reach idle, so a sounding envelope stays sounding and a voice whose note was never released is not freed |
| VoiceParts.FilterTypeAfter | Source/SynthVoice.cpp:110-115 | 0, 1 and 2 select lowpass, highpass and bandpass; any other index keeps the current type |
| VoiceParts.UpdatedFilter | Source/SynthVoice.cpp:105-116 | Sets the cutoff and resonance, sets the type through the switch, and keeps the spec |
| VoiceParts.PreparedFilter | Source/SynthVoice.cpp:21-26 | The filter takes the spec and is set to lowpass; cutoff and resonance are kept |
| SynthVoice.IndexToSemitone | Source/SynthVoice.cpp:58-69 | The result lies in [-12, 12]; every index outside 0..4 gives 0 |
| SynthVoice.SemitoneTable | Source/SynthVoice.cpp:58-69 | The entries are -12, -7, 0, +7, +12; they rise strictly and are symmetric about unison; an index outside the table acts like index 2 |
| SynthVoice.OscillatorFrequencyAtUnison | Source/SynthVoice.cpp:76-89 | With no detune and a truncated pitch index of 2 or outside 0..4, an oscillator plays the note's own frequency |
| SynthVoice.Gate | Source/SynthVoice.cpp:168-173 | A switched-off oscillator gives 0; a sample with magnitude below 1e-6 gives 0; otherwise the sample passes unchanged |
| SynthVoice.MixSelects | Source/SynthVoice.cpp:166-179 | Blend 0 plays oscillator 1 alone and blend 1 plays oscillator 2 alone; a switched-off oscillator adds nothing; both off is silence |
| SynthVoice.MixWithinOscillatorRange | Source/SynthVoice.cpp:175-178 | With blend in [0, 1] and velocity >= 0, a mixed sample stays within the oscillators' bound times the velocity |
| SynthVoice.MixBlock | Source/SynthVoice.cpp:160-180 | The mix block has the output's shape, and each sample is the mix of the two oscillator samples at the same position |
| SynthVoice.WriteMix | Source/SynthVoice.cpp:160-180 | The mix loop fills the mix buffer with exactly MixBlock |
| SynthVoice.RenderOscillators | Source/SynthVoice.cpp:149-158 | Each oscillator renders into a cleared scratch buffer, and the blocks that come back are what they rendered. Each smoother takes one step per sample. Shapes, base frequencies and gains are unchanged |
| SynthVoice.AddProcessedMix | Source/SynthVoice.cpp:160-197 | filter(envelope(MixBlock)) keeps the block's shape and is added into the window of every output channel; every other output sample is unchanged |
| SynthVoice.SynthVoice.constructor | Source/SynthVoice.h:217-228 | A new voice is inactive, with velocity 0, blend 0.5, both oscillators switched on and no note |
| SynthVoice.SynthVoice.Prepare | Source/SynthVoice.cpp:14-27 | Both oscillators are prepared with sine and zero phase, their smoothers at rest on 440 Hz with the ramp length of the new sample rate, and their gains and base frequencies kept; the envelope takes the sample rate; the filter takes the spec and lowpass; voice state is unchanged |
| SynthVoice.SynthVoice.StartNote | Source/SynthVoice.cpp:30-41 | The voice becomes active with level = velocity and the note's frequency. Both oscillator phases reset to 0, and a prepared oscillator's smoother comes to rest on its target. The oscillators' shapes, gains, base frequencies and sample rates are unchanged. The envelope starts |
| SynthVoice.SynthVoice.StopNote | Source/SynthVoice.cpp:44-54 | With tail-off only the envelope is released and isActive is unchanged; without tail-off the envelope is reset, the voice is inactive and the note is cleared |
| SynthVoice.SynthVoice.UpdateFromParameters | Source/SynthVoice.cpp:72-92 | Each oscillator gets its own gain and its frequency from base, pitch choice and detune, forced: its smoother rests on that frequency with its ramp length kept, and its sample rate, shape and phase are unchanged; blend is jlimit(0, 1, blendAmount), so it is in [0, 1] |
| SynthVoice.SynthVoice.UpdateEnvelope | Source/SynthVoice.cpp:95-102 | Only the envelope parameters change |
| SynthVoice.SynthVoice.UpdateFilter | Source/SynthVoice.cpp:105-116 | Only the filter settings change, as UpdatedFilter says |
| SynthVoice.SynthVoice.UpdateOscillators | Source/SynthVoice.cpp:119-125 | The shapes follow the indices; blend is clamped into [0, 1]; the oscillators' smoothers, base frequencies, phases, gains and sample rates are unchanged |
| SynthVoice.SynthVoice.UpdateOscOnOff | Source/SynthVoice.cpp:127-131 | Only the two switches change |
| SynthVoice.SynthVoice.UpdateFM | Source/SynthVoice.cpp:133-137 | Changes nothing |
| SynthVoice.SynthVoice.RenderNextBlock | Source/SynthVoice.cpp:141-204 | An inactive voice leaves the voice, its oscillators and the output unchanged. An active voice runs both oscillators over the block, so each smoother takes numSamples steps. It adds filter(envelope(mix)) into the window only, leaving every other output sample unchanged. Oscillator shapes, base frequencies and gains are unchanged. Afterwards the voice is active iff the envelope is, and a freed voice clears its note |
| SynthVoiceInline.FmRatio | Source/SynthVoice.h:96 | For fmAmount in [0, 10] the ratio lies in [1, 2]; the ratio is 1 iff fmAmount is 0 |
| SynthVoiceInline.InlineFrequencies | Source/SynthVoice.h:86-101 | With no detune and no FM, oscillator 2 equals oscillator 1 (given pow(2, 0) = 1); each unit of fmAmount adds a tenth of the detuned frequency |
| SynthVoiceInline.PerOscillatorGain | Source/SynthVoice.h:104-106 | The two oscillator gains add up to the master gain |
| SynthVoiceInline.InlineMixAgainstCanonical | Source/SynthVoice.h:132-140 | The mix agrees with the canonical one when both oscillators are on and neither sample is below 1e-6. It ignores the switches, so with oscillator 1 off and blend 0 it still plays oscillator 1 |
| SynthVoiceInline.InlineMixBlock | Source/SynthVoice.h:131-140 | The mix block has the output's shape, and each sample is (s1(1 - blend) + s2·blend)·level |
| SynthVoiceInline.WriteInlineMix | Source/SynthVoice.h:131-140 | The mix loop fills the mix buffer with exactly InlineMixBlock |
| SynthVoiceInline.AddProcessedInlineMix | Source/SynthVoice.h:131-157 | filter(envelope(InlineMixBlock)) keeps the block's shape and is added into the window of every output channel; every other output sample is unchanged |
| SynthVoiceInline.SynthVoice.constructor | Source/SynthVoice.h:217-228 | The member initialisers: gain 0.8, detune, pitch and FM 0, blend 0.5, switches on, inactive |
| SynthVoiceInline.SynthVoice.Prepare | Source/SynthVoice.h:54-72 | Oscillators are prepared and set to waveform 0 with zero phase, their smoothers at rest on 440 Hz with the ramp length of the new sample rate, and their gains and base frequencies kept; the filter takes the spec and lowpass; the envelope takes the sample rate |
| SynthVoiceInline.SynthVoice.StartNote | Source/SynthVoice.h:24-33 | The voice becomes active with level = velocity and the note's frequency; the envelope starts; the oscillators are not reset |
| SynthVoiceInline.SynthVoice.StopNote | Source/SynthVoice.h:35-49 | With tail-off the voice stays as it was and the envelope is released; without tail-off the voice is inactive and the note is cleared |
| SynthVoiceInline.SynthVoice.UpdateFromParameters | Source/SynthVoice.h:75-107 | Stores the four parameters; oscillator 1 gets the pitched frequency; oscillator 2 gets the detuned, FM-scaled frequency; both are forced, so each smoother rests on its frequency with its ramp length kept; sample rates, shapes and phases are unchanged; each gets half the master gain |
| SynthVoiceInline.SynthVoice.RenderNextBlock | Source/SynthVoice.h:109-165 | An inactive voice changes nothing, oscillators included. An active voice runs both oscillators over the block, so each smoother takes numSamples steps. It adds filter(envelope(mix)) into the window only. Oscillator shapes, base frequencies and gains and the stored parameters are unchanged. Afterwards the voice is active iff the envelope is |
| SynthVoiceInline.SynthVoice.UpdateEnvelope | Source/SynthVoice.h:168-175 | Only the envelope parameters change; gain, detune, pitch shift and FM amount are unchanged |
| SynthVoiceInline.SynthVoice.UpdateFilter | Source/SynthVoice.h:177-188 | Only the filter settings change; gain, detune, pitch shift and FM amount are unchanged |
| SynthVoiceInline.SynthVoice.UpdateOscillators | Source/SynthVoice.h:190-195 | The shapes follow the indices; blend is clamped into [0, 1]; the oscillators' smoothers, base frequencies, phases, gains and sample rates and the stored parameters are unchanged |
| SynthVoiceInline.SynthVoice.UpdateOscOnOff | Source/SynthVoice.h:197-201 | Only the two switches change; the render never reads them; gain, detune, pitch shift and FM amount are unchanged |
| SawOscillator.IncrementBelowCycle | Source/SawWave.cpp:28 | The increment 2·pi·f/sampleRate is below one cycle iff f < sampleRate, and is non-negative iff f is |
| SawOscillator.Advance | Source/SawWave.cpp:31-37 | One step subtracts 2·pi at most once; a phase in [0, 2·pi) plus an increment in [0, 2·pi) stays in [0, 2·pi) |
| SawOscillator.PhaseStaysInCycle | Source/SawWave.cpp:26-38 | With every frequency in [0, sampleRate), a phase that starts in [0, 2·pi) is in [0, 2·pi) after any number of samples |
| SawOscillator.SawSampleWithinAmplitude | Source/SawWave.cpp:30 | With |sin| <= 1 and amplitude >= 0, every output sample lies within ±amplitude |
| SawOscillator.WriteChannel | Source/SawWave.cpp:26-38 | One channel's loop: each sample is amplitude·sin(phase before the step); the returned phase is the phase advanced over the channel's frequencies; other channels are unchanged |
| SawOscillator.SawWave.constructor | UNUSED/SawWave.h:23-26 | No phases, amplitude 0.5, sample rate 0 |
| SawOscillator.SawWave.Prepare | Source/SawWave.cpp:7-12 | Stores the sample rate and resizes the phases to exactly numChannels entries; existing phases are kept and new ones are 0 |
| SawOscillator.SawWave.SetAmplitude | UNUSED/SawWave.h:18 | Only the amplitude changes |
| SawOscillator.SawWave.Process | Source/SawWave.cpp:14-40 | The asserts on sample rate, amplitude and channel count are the preconditions. Every sample of every channel is overwritten with amplitude·sin(phase before the step). Each channel's phase advances over its own frequencies only |
| SawOscillator.ProcessKeepsPhasesAndLevel | Source/SawWave.cpp:14-40 | After process, every phase is still in [0, 2·pi) and every sample lies within ±amplitude |
| SineOscillator.TimeAfterIsLinear | Source/SineWave.cpp:23-25 | k accumulated increments equal t0 + k·increment |
| SineOscillator.SineSampleWithinAmplitude | Source/SineWave.cpp:24 | With |sin| <= 1 and amplitude >= 0, a sample lies within ±amplitude |
| SineOscillator.WriteChannel | Source/SineWave.cpp:23-28 | One channel's loop: each sample is amplitude·sin(2·pi·frequency·t) at the channel's running time; the returned time is the start plus numSamples increments; other channels are unchanged |
| SineOscillator.SineWave.constructor | Source/SineWave.h:22-26 | Amplitude 0, frequency 440, sample rate and increment 0, no channel times |
| SineOscillator.SineWave.Prepare | Source/SineWave.cpp:7-11 | timeIncrement·sampleRate = 1, and currentTime has exactly numChannels entries, with existing times kept and new ones 0 |
| SineOscillator.SineWave.SetAmplitude | Source/SineWave.h:17 | Only the amplitude changes |
| SineOscillator.SineWave.SetFrequency | Source/SineWave.h:18 | Only the frequency changes |
| SineOscillator.SineWave.Process | Source/SineWave.cpp:13-30 | On a channel-count mismatch the buffer and the times are unchanged. Otherwise every sample is amplitude·sin(2·pi·frequency·t), at the channel's time before the step, and every time advances by numSamples increments |
| SineOscillator.ProcessAdvancesTime | Source/SineWave.cpp:18-29 | Each channel's time grows by exactly numSamples/sampleRate; with |sin| <= 1 every sample lies within ±amplitude |
| PluginProcessor.Osc1WithoutShift | Source/PluginProcessor.cpp:150-158 | Without pitch shift, oscillator 1 plays freqHz + detune: the detune is added in Hz, not cents |
| PluginProcessor.Osc2Modes | Source/PluginProcessor.cpp:158-167 | Mode 0 follows oscillator 1; mode 1 is half freqHz; mode 2 is 1.5·freqHz. Modes 1 and 2 ignore detune and pitch shift; other truncated modes follow oscillator 1 |
| PluginProcessor.IsBusesLayoutSupported | Source/PluginProcessor.cpp:116-138 | A MIDI effect accepts every layout. Otherwise an accepted output is mono or stereo, and a non-synth's input matches its output |
| PluginProcessor.LayoutAcceptance | Source/PluginProcessor.cpp:126-136 | Conversely, a mono or stereo output with a matching input is accepted, and a synth accepts it whatever the input |
| PluginProcessor.DefaultLayout | Source/PluginProcessor.cpp:6-16 | A non-MIDI-effect declares a stereo output; it declares a stereo input iff it is neither a MIDI effect nor a synth |
| PluginProcessor.DefaultLayoutSupported | Source/PluginProcessor.cpp:6-16 | In every build, the layout the constructor declares passes isBusesLayoutSupported |
| PluginProcessor.CreateParameters | Source/PluginProcessor.cpp:230-242 | Eight parameters with distinct ids, each default inside its declared range |
| PluginProcessor.DefaultsPlay | Source/PluginProcessor.cpp:232-240 | With default values the plugin plays both oscillators at 220 Hz, with gains 0.8 and 0.4 |
| PluginProcessor.WriteSum | Source/PluginProcessor.cpp:183-191 | Every output sample is overwritten by the sum of the two oscillator samples |
| PluginProcessor.RenderSum | Source/PluginProcessor.cpp:172-191 | Each oscillator renders into a cleared scratch buffer, and every output sample becomes the sum of what they rendered. Each smoother takes one step per sample. Shapes, table sizes, base frequencies, gains and each oscillator's prepared spec (sample rate, block size, channel count) are unchanged |
| PluginProcessor.Processor.constructor | Source/PluginProcessor.cpp:6-16 | The processor owns two distinct oscillators and declares DefaultLayout |
| PluginProcessor.Processor.PrepareToPlay | Source/PluginProcessor.cpp:89-95 | Both oscillators are prepared with the sample rate, block size and output channel count, and set to the sine. Their phases are 0 and their smoothers rest on 440 Hz. For a positive sample rate the ramp length is floor(0.05·sampleRate) steps. Their gains and base frequencies are unchanged |
| PluginProcessor.Processor.ProcessBlock | Source/PluginProcessor.cpp:140-194 | With play off the buffer is all zeros and the oscillators are unchanged. Otherwise each output sample is the sum of the two oscillator samples, overwriting, and the oscillators get Osc1Frequency, Osc2Frequency and their gains, with their smoothers at rest on those frequencies. In both cases the shapes, table sizes, ramp lengths and each oscillator's prepared spec (sample rate, block size, channel count) are unchanged |

## Left out

- The GUI (Source/PluginEditor.cpp, Source/PluginEditor.h, Source/Square.cpp) has no logic to verify.
- The inner workings of juce::ADSR are foreign code. Only its observable stage is modelled: noteOn, noteOff, reset, and whether a block finished the release. Stage timings are not modelled.
- VoiceParts.Envelope.NoteOff: JUCE resets an envelope at once when its release time is 0. The model always moves an active envelope into its release.
- The StateVariableTPTFilter recurrences, the dsp::Oscillator lookup tables and dsp::Gain are foreign code. They appear as shape-preserving block functions or as input blocks.
- Oscillators.Oscillator.Process: the phase advance of the dsp::Oscillator during process is not interpreted. The contract leaves the phase free. The voices take the rendered blocks as inputs and do not track oscillator phases across blocks.
- Oscillators.TableSize: the model records the square lambda (Source/Oscillator.cpp:61-64) and its 2-point lookup table, but not the waveform those two points play. As JUCE's lookup table is read, it interpolates linearly between its points over [-π, π]. Two points, -1 and +1, would then play a ramp from -1 to +1 rather than a square. That lookup table is foreign code and is not part of this model.
- Oscillators.Smoother: JUCE computes the ramp in float. The model computes it in exact reals.
- Oscillators.Oscillator.Reset: the wrapper's sample rate stands for dsp::Oscillator's own. They agree from the first prepare on. Before it, JUCE's oscillator keeps a default rate of its own (48 kHz), so a reset there would give its smoother a 2400-step ramp, where the model keeps no ramp length.
- dsp::Gain is foreign. The model records the gain last set, and the gained output is part of the rendered input block.
- The SmoothedValue ramp in Source/SawWave.cpp is foreign. Process takes the values it hands out as an input, and the reset and setCurrentAndTargetValue calls in prepare (Source/SawWave.cpp:10-11) are not modelled.
- Noise (Source/Oscillator.cpp:84-89) draws from the global random generator. The draw is a parameter.
- sin, pow, asin and getMidiNoteInHertz are uninterpreted. Float rounding, float-to-double conversion and the float `pi` constant are modelled as exact reals.
- Audio.TruncateToInt: a float outside the int range is undefined behaviour in C++. The model truncates every real.
- SawOscillator.SawWave.Prepare and SineOscillator.SineWave.Prepare take a natural channel count. A negative count would be converted to a huge size_t.
- SineOscillator.SineWave.Prepare requires a non-zero sample rate. In float arithmetic, 1/0 would give infinity.
- The canonical SynthVoice.cpp is compiled against a header that is not the SynthVoice.h shown. Its member defaults are taken from the shown header's initialisers, and the constructor row cites them.
- Source/Oscillator.h declares a Waveforms enum with Saw = 1 and Square = 2, which disagrees with initWaveform. The model follows Source/Oscillator.cpp.
- Host plumbing is not modelled: the atomic parameter pointers, the parameter lookups in prepareToPlay (Source/PluginProcessor.cpp:97-107), the plugin boilerplate (names, programs, editor, MIDI flags) and the empty state save and restore. The harmonics parameter is declared but never used by processBlock.
- MIDI handling, pitch wheel and controllers do nothing in the voices. The polyphony manager lives in juce::Synthesiser, which is foreign.

## Findings

| source | as written | input that shows it | evidently intended | confidence | as-written member | corrected member |
|---|---|---|---|---|---|---|
| Source/Oscillator.cpp:124 | `osc.setFrequency(freq, false)` sits under the comment "fast update, no smoothing". With force == false the dsp::Oscillator starts a 50 ms linear ramp, so each sample runs only part of the way to baseFrequency + fm[i]·fmDepth | Prepared at 48 kHz (2400 ramp steps), base frequency 440 Hz, fm[0]·fmDepth = 440: the first sample runs at 440 + 440/2400 Hz, not 880 Hz | `osc.setFrequency(freq, true)`, so every sample runs at exactly its FM frequency | medium, not executed | Oscillators.Oscillator.ProcessWithFM, Oscillators.RampedStepFallsShort | Oscillators.Oscillator.ProcessWithFMForced, Oscillators.ForcedStepIsExact |
