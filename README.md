# Subtractive synthesizer processor — a Dafny model

This project models the audio processor of a small JUCE subtractive-synthesizer
plugin in its two snapshots:

- `Source/PluginProcessor.cpp` — `SubtractiveSynthesisAudioProcessor`, the six-shape
  synth. Each block it clears the buffer and walks the block's MIDI events through a
  monophonic note gate. A note-on sets `amp` to 0.1 and latches `car_freq`. A note-off
  sets `amp` to 0. Every other message is ignored, and every event is forwarded. It
  then installs the chosen wave shape with the final `amp` and lets the oscillator fill
  the block. Last, it designs a low-pass filter from the `FREQ` and `Q` parameters at
  the fixed `SAMPLE_RATE` of 44100.
- `PluginProcessor.cpp` — `BasicOscillatorAudioProcessor`, the four-shape version. Its
  oscillator is fixed at 220 Hz and its gain at 0.1 by `prepareToPlay`, and it has no
  note handling. Each block it clears the output channels beyond the inputs, runs
  oscillator, then gain, then designs the filter.

Modules, leaves first:

| file | module | what it holds |
|---|---|---|
| `optional.dfy` | `Optional` | `Option` |
| `midi.dfy` | `Midi` | classified MIDI messages with timestamps |
| `waveforms.dfy` | `Waveforms` | the wave shapes of both snapshots and the choice dispatch |
| `note_gate.dfy` | `NoteGate` | the gate as a pure fold over a block's events, and its laws |
| `bus_layout.dfy` | `BusLayout` | `isBusesLayoutSupported`, the constructor's declared buses and the layouts they start in |
| `filter.dfy` | `Filter` | the arguments of the low-pass design |
| `parameters.dfy` | `Parameters` | `createParameters` of both snapshots, float-to-choice conversion |
| `audio_buffer.dfy` | `AudioBuffer` | in-place clearing, adding and scaling on `array2<real>` |
| `subtractive_synth.dfy` | `SubtractiveSynth` | the six-shape `OscData` and processor classes |
| `basic_oscillator.dfy` | `BasicOscillator` | the four-shape `OscData`, `Gain` and processor classes |

The processors are classes whose fields are the source's members: `amp`, `car_freq`,
the oscillator, the gain stage and the installed filter design. One more field,
`hostSampleRate`, stands for the rate `prepareToPlay` hands to the processing stages
in their `ProcessSpec`; the source keeps that rate in no member of its own.
`processBlock` is a method that changes them in place, along with the host's buffer
(an `array2<real>` indexed `[channel, sample]`). The MIDI loop is a `while` loop. Its invariant ties the
fields to `NoteGate.Run`, the pure fold over the events seen so far, and the lemmas
about the gate are proved about that fold.

Frequencies are kept abstract. The gate latches the note number that `car_freq` is
computed from, and `None` stands for "no note-on yet". The oscillator's arguments for
one block are an input sequence `xs`: one value per sample, the oscillator's phase
minus π. Sine and cosine come in as a `Trig` record of two functions.

On these points the code is not what a reader might expect, and the model follows the
code:

- The code does not clamp the cutoff below Nyquist or Q above zero before the filter
  design. The model does not clamp either. `Parameters.InRangeDesignRealisable` shows
  that every value inside the declared ranges is already a valid design argument.
- The code designs the filter at a fixed 44100 Hz, whatever rate the host prepared it
  with. The model records that fixed rate.
- The code has no gate-open flag, only `amp`.
- Both constructors declare the audio-effect input with `isActivatedByDefault` false
  (`Source/PluginProcessor.cpp:60`). Built as an audio effect, the processor would
  therefore start with no input and a stereo output, a layout its own
  `isBusesLayoutSupported` rejects until the host activates the input. The model keeps
  the flag and proves both facts. The synth build is not affected.
- The six-shape header declares `setWaveType(const int)` with one argument and declares
  no `amp` or `car_freq` (`Source/PluginProcessor.h:19`). The model follows the
  two-argument form of the `.cpp` and treats `amp` and `car_freq` as fields that
  persist across blocks.

## Model

| member | source | states |
|---|---|---|
| `Waveforms.ShapeOfChoice` | Source/PluginProcessor.cpp:15-48 | a shape is selected iff the choice is 0..5, and it is the shape with that index; any other choice is the asserting default branch |
| `Waveforms.ChoiceRoundTrip` | Source/PluginProcessor.cpp:15-44 | each shape's index selects that shape again |
| `Waveforms.Evaluate` | Source/PluginProcessor.cpp:15-44 | the installed generator on one argument; with a positive amp the saw, square and triangle are negative exactly for negative arguments |
| `Waveforms.SawWave` | Source/PluginProcessor.cpp:22-25 | with a positive amp the saw has the sign of x; it is zero exactly when x or amp is |
| `Waveforms.TriangleWave` | Source/PluginProcessor.cpp:32-35 | with a positive amp the delta-shifted triangle is negative exactly when `x < 0` |
| `Waveforms.PinkyWave` | Source/PluginProcessor.cpp:37-40 | Pinky is silent wherever sin or cos of the argument vanishes, or amp is 0 |
| `Waveforms.PonkyWave` | Source/PluginProcessor.cpp:41-44 | Ponky is silent at 0; elsewhere, with a positive amp, it has the sign of `cos(5x)` |
| `Waveforms.SquareWave` | Source/PluginProcessor.cpp:27-30 | square is `amp` or `-amp`; with a positive amp it is negative exactly when `x < 0` |
| `Waveforms.SawBounded` | Source/PluginProcessor.cpp:22-25 | over `[-π, π]` the saw `amp*x/π` stays in `[-amp, amp]`, is `-amp` at `-π` and 0 at 0 |
| `Waveforms.TriangleOdd` | Source/PluginProcessor.cpp:32-35 | the delta-shifted triangle is odd away from 0 and takes `amp*delta` at 0 |
| `Waveforms.TriangleMagnitude` | Source/PluginProcessor.cpp:32-35 | its magnitude is `abs(amp)*(abs(x)+delta)`, so it is zero iff amp is zero |
| `Waveforms.TriangleIncreasing` | Source/PluginProcessor.cpp:32-35 | with a positive amp the triangle is strictly increasing in x |
| `Waveforms.AmplitudeScales` | Source/PluginProcessor.cpp:17-44 | every one of the six shapes is its unit-amplitude shape times the captured amp |
| `Waveforms.SilentAtZeroAmplitude` | Source/PluginProcessor.cpp:17-44 | a generator installed with amp 0 outputs 0 for every shape and argument |
| `Waveforms.BasicShapeOfChoice` | PluginProcessor.cpp:19-43 | a shape is selected iff the choice is 0..3 (Sine, Saw, Square, Triangle in that order); any other choice asserts |
| `Waveforms.BasicEvaluate` | PluginProcessor.cpp:21-39 | the four unit-amplitude shapes: saw and square are negative exactly for negative arguments, and the square is always 1 or -1 |
| `Waveforms.BasicTriangleShape` | PluginProcessor.cpp:36-39 | the `abs(x)` triangle is never negative, symmetric in x, and zero only at 0 |
| `Waveforms.BasicIsUnitAmplitude` | PluginProcessor.cpp:21-34 | sine, `x/π` saw and ±1 square equal the six-shape ones at amplitude 1 |
| `Waveforms.TrianglesDiffer` | PluginProcessor.cpp:36-39 | the two snapshots' triangles disagree for every negative x (`abs(x)` > 0, delta triangle < 0) |
| `NoteGate.Step` | Source/PluginProcessor.cpp:199-215 | note-on: amp 0.1 and its note latched (velocity unused); note-off: amp 0, note kept; anything else: no change |
| `NoteGate.Run` | Source/PluginProcessor.cpp:198-216 | the loop as a fold over the block's events; afterwards the latched note is the old one or that of a note-on in the block |
| `NoteGate.Observed` | Source/PluginProcessor.cpp:199-208 | the only data of a message the gate reads is whether it is a note-on (with its note) or a note-off |
| `NoteGate.RunAppend` | Source/PluginProcessor.cpp:198-216 | processing two blocks in turn leaves the gate as processing their concatenation does |
| `NoteGate.NoNoteEventKeepsState` | Source/PluginProcessor.cpp:198-216 | a block without note-on/off leaves amp and the latched note from the previous block |
| `NoteGate.LastNoteEventWins` | Source/PluginProcessor.cpp:198-216 | after the loop amp is 0.1 if the block's last note event is a note-on and 0 if it is a note-off |
| `NoteGate.LastNoteOnLatched` | Source/PluginProcessor.cpp:198-216 | after the loop the latched note is that of the block's last note-on |
| `NoteGate.NoNoteOnKeepsNote` | Source/PluginProcessor.cpp:205-215 | note-offs and other messages never change the latched note |
| `NoteGate.RunSeesOnlyNoteData` | Source/PluginProcessor.cpp:198-216 | two blocks with the same note kinds and numbers give the same gate, whatever their timestamps, velocities and other messages |
| `NoteGate.AmpValues` | Source/PluginProcessor.cpp:198-216 | after any block amp is its previous value, 0.1 or 0 |
| `SubtractiveSynth.OscData.SetWaveType` | Source/PluginProcessor.cpp:13-51 | a choice 0..5 installs its shape with the amp captured; any other choice reports the assertion and keeps the old generator |
| `SubtractiveSynth.OscData.SetFrequency` | Source/PluginProcessor.cpp:203 | the oscillator is retuned to the note's pitch, the generator kept |
| `SubtractiveSynth.OscData.Process` | Source/PluginProcessor.cpp:225 | the generator's output for each argument is added to that sample of every channel |
| `SubtractiveSynth.SubtractiveSynthesisProcessor.constructor` | Source/PluginProcessor.cpp:55-68 | no generator yet, no note latched, filter designed at 44100 Hz, 20000 Hz, Q 0.1 |
| `SubtractiveSynth.SubtractiveSynthesisProcessor.PrepareToPlay` | Source/PluginProcessor.cpp:137-148 | records the host rate; amp, the latched note and the filter design are untouched |
| `SubtractiveSynth.SubtractiveSynthesisProcessor.ProcessMidi` | Source/PluginProcessor.cpp:194-217 | the outgoing events equal the incoming ones (same events, times, order); the gate becomes `Run` of the old gate over them; the oscillator stays tuned to `car_freq` |
| `SubtractiveSynth.SubtractiveSynthesisProcessor.PrepareBuffer` | Source/PluginProcessor.cpp:186-193 | after clearing channels numInputs..numOutputs-1 and then the whole buffer, every sample of every channel is 0 |
| `SubtractiveSynth.SubtractiveSynthesisProcessor.ProcessBlock` | Source/PluginProcessor.cpp:180-231 | MIDI forwarded unchanged; gate = `Run` over the block; the chosen shape is installed with the FINAL amp (or the old generator kept on an invalid choice); every sample of every channel is that generator's output, whatever the buffer held; filter designed at 44100 Hz from FREQ and Q |
| `SubtractiveSynth.NoteOffSilencesWholeBlock` | Source/PluginProcessor.cpp:198-225 | a note-off not followed by a note-on silences every sample of the block, including those before its timestamp |
| `SubtractiveSynth.NoteOnSoundsWholeBlock` | Source/PluginProcessor.cpp:198-225 | a note-on not followed by a note-off sounds every sample of the block at 0.1 times the unit shape |
| `BusLayout.IsBusesLayoutSupported` | Source/PluginProcessor.cpp:157-177 | a layout accepted by an audio build (not a MIDI effect) has one or two output channels |
| `BusLayout.DeclaredBuses` | Source/PluginProcessor.cpp:57-63 | no bus for a MIDI effect; otherwise a stereo output active from the start and, only for an audio effect, a stereo input declared inactive (`false`) |
| `BusLayout.SupportedCharacterised` | Source/PluginProcessor.cpp:157-177 | accepted iff a MIDI effect, or the output is mono or stereo and (synth, or input equals output) |
| `BusLayout.SynthIgnoresInput` | Source/PluginProcessor.cpp:170-173 | built as a synth, the input layout never changes the answer |
| `BusLayout.EffectLayouts` | PluginProcessor.cpp:156-176 | built as an audio effect, exactly mono→mono and stereo→stereo are accepted |
| `BusLayout.StartingLayoutSupported` | PluginProcessor.cpp:52-58 | built as a synth or a MIDI effect, the layout the processor starts in is accepted |
| `BusLayout.EffectStartingLayoutRejected` | PluginProcessor.cpp:52-58 | built as an audio effect, the processor starts with the input inactive (no input, stereo output), and `isBusesLayoutSupported` rejects that layout |
| `BusLayout.ActivatedLayoutSupported` | PluginProcessor.cpp:156-176 | for every build, once every declared bus is active at its declared stereo set, the layout is accepted |
| `Filter.InitialDesign` | Source/PluginProcessor.cpp:65 | the constructor's design (44100, 20000, 0.1) has its cutoff below Nyquist and a positive Q |
| `Parameters.SubtractiveParameters` | Source/PluginProcessor.cpp:266-277 | six wave choices, default 0, exactly the choices that select a shape; FREQ [50, 1500] default 500; Q [0.1, 1] default 0.5; defaults inside ranges, ids distinct, ranges realisable |
| `Parameters.BasicParameters` | PluginProcessor.cpp:236-247 | four wave choices, default 0, exactly the choices that select a shape; FREQ [50, 20000] default 500; Q [0.1, 1] default 0.5; defaults inside ranges, ids distinct, ranges realisable |
| `Parameters.InRangeDesignRealisable` | Source/PluginProcessor.cpp:228-230 | without clamping, any FREQ and Q inside the declared ranges gives a cutoff in (0, 22050) and a positive Q |
| `Parameters.ChoiceFromParam` | Source/PluginProcessor.cpp:221-223 | the float choice value becomes the int choice by truncation toward zero |
| `Parameters.DeclaredChoicesSelectShapes` | Source/PluginProcessor.cpp:271 | every declared choice index, passed through the float store, selects a shape: the assertion is unreachable |
| `Parameters.BasicDeclaredChoicesSelectShapes` | PluginProcessor.cpp:241 | the same for the four declared choices of the basic snapshot |
| `AudioBuffer.ClearChannel` | Source/PluginProcessor.cpp:187 | channel ch becomes 0 in place; every other channel keeps its samples |
| `AudioBuffer.ClearChannels` | Source/PluginProcessor.cpp:186-187 | channels first..last-1 become 0 and every other channel keeps its samples |
| `AudioBuffer.Clear` | Source/PluginProcessor.cpp:193 | every sample of every channel becomes 0 |
| `AudioBuffer.AddToEveryChannel` | Source/PluginProcessor.cpp:225 | the oscillator's in-place pass: each sample of every channel gets that sample's signal value added |
| `AudioBuffer.Scale` | PluginProcessor.cpp:195 | every sample of every channel is multiplied by the gain |
| `BasicOscillator.OscData.SetWaveType` | PluginProcessor.cpp:13-46 | a choice 0..3 installs its shape; any other choice reports the assertion and keeps the old generator |
| `BasicOscillator.OscData.SetFrequency` | PluginProcessor.cpp:145 | the oscillator frequency becomes the given Hz, the generator kept |
| `BasicOscillator.OscData.Process` | PluginProcessor.cpp:194 | the generator's output for each argument is added to that sample of every channel |
| `BasicOscillator.Gain.SetGainLinear` | PluginProcessor.cpp:146 | the linear gain becomes the given factor |
| `BasicOscillator.Gain.Process` | PluginProcessor.cpp:195 | every sample is multiplied by the linear gain |
| `BasicOscillator.BasicOscillatorProcessor.constructor` | PluginProcessor.cpp:50-63 | no generator yet, the oscillator at JUCE's starting 440 Hz and the gain at JUCE's starting 0, filter designed at 44100 Hz, 20000 Hz, Q 0.1 |
| `BasicOscillator.BasicOscillatorProcessor.PrepareToPlay` | PluginProcessor.cpp:132-147 | oscillator frequency 220 and gain 0.1 afterwards, generator and filter design untouched |
| `BasicOscillator.BasicOscillatorProcessor.ProcessBlock` | PluginProcessor.cpp:179-202 | MIDI returned unchanged; frequency and gain unchanged; each sample becomes gain × (0 for channels numInputs..numOutputs-1, else its input, plus the oscillator output): oscillator before gain; filter designed at 44100 Hz from FREQ and Q |

## Left out

- Floating point: all sample arithmetic is on reals. The model does not capture float
  rounding in `x/π`, in adding the double `delta` to a float, or in the gain.
- Sine and cosine are parameters (`Trig`). The model says nothing about their values,
  so the Sine, Pinky and Ponky shapes are modelled only up to them.
- Ponky: the C++ expression reads `x` in its cubic and cosine factors and also updates
  it in the last factor, with no sequencing between them. The model reads the first
  factors on the `x` passed in.
- The four-shape triangle's `abs(x)` is read as the floating-point absolute value.
- JUCE's oscillator internals (`juce::dsp::Oscillator`): the phase accumulator, phase
  wrapping and frequency smoothing. The per-sample arguments are the input `xs`. The
  oscillator's frequency is kept as a note number (six-shape) or in Hz (four-shape),
  and it has no effect on `xs` in the model.
- `getMidiNoteInHertz`: it is a foreign float conversion. The gate latches the note
  number instead.
- MIDI classification: messages arrive already classified as JUCE's `isNoteOn`,
  `isNoteOff`, `isAftertouch` and `isPitchWheel` would classify them. For example,
  JUCE counts a note-on with velocity 0 as a note-off; that rule is not part of this
  model.
- The IIR low-pass filter: the coefficient design (`makeLowPass`), the filtering, the
  delay registers, `prepare` and `reset`. Only the design arguments are recorded. The
  buffer a block leaves in the model is the signal handed to the filter.
- The parameter store: storage, atomic reads across threads, and raw-pointer access.
  The values it yields arrive as method parameters. The host's thread and the UI
  thread are not modelled.
- `jassertfalse` halts a debug build. The model takes the release-build behaviour: the
  old generator stays installed, and `SetWaveType` reports `accepted == false`. JUCE's
  oscillator must have a generator before it processes. So each `ProcessBlock`
  requires a valid choice or an already installed generator.
- The initial values of `amp` and `car_freq`: neither `Source/PluginProcessor.h` nor
  the processor declares them, so `amp`'s first value is a constructor parameter, and
  `car_freq` starts as "no note yet".
- JUCE's bus-change protocol: the model has the layout the processor starts in and
  the layout with every declared bus active, not the host's requests in between.
- Buffer-shape facts the host guarantees: the buffer has at least `numOutputs` channels
  whenever channels are cleared. This appears as a precondition.
- `ScopedNoDenormals`, plugin metadata, programs, `getTailLengthSeconds`,
  `releaseResources`, empty `get/setStateInformation`, `createEditor`, `hasEditor`,
  `createPluginFilter`, and all editor files: they do no synthesis.
- `BasicOscillator.BasicOscillatorProcessor.ProcessBlock`: JUCE's gain stage may ramp
  between values. It is taken as an immediate linear factor, as it is when the gain
  never changes.
