/**
 * The six-shape processor (SubtractiveSynthesisAudioProcessor): a MIDI-gated
 * oscillator whose block output goes to a low-pass filter.
 *
 * processBlock clears the buffer, runs the note gate over the block's MIDI
 * events (forwarding every event), installs the chosen shape with the gate's
 * final amplitude, lets the oscillator fill the block, and designs the filter
 * from the FREQ and Q parameters at the fixed SAMPLE_RATE.
 *
 * The oscillator's phase accumulator is JUCE's: a block's generator arguments
 * (phase minus pi, one per sample) are an input `xs` here. The filtering itself
 * is JUCE's too: the buffer a block leaves is the signal handed to the filter.
 */
module SubtractiveSynth {
  import opened Optional
  import opened Midi
  import opened Waveforms
  import opened NoteGate
  import opened Filter
  import opened Parameters
  import AudioBuffer

  /** The block the oscillator generates: one evaluation of the generator per argument. */
  function Render(g: Generator, trig: Trig, xs: seq<real>): seq<real>
  {
    seq(|xs|, i requires 0 <= i < |xs| => Evaluate(g, trig, xs[i]))
  }

  /** OscData: JUCE's oscillator with the generator and the frequency it was last given. */
  class OscData {
    /** The installed generator; None before the first successful setWaveType. */
    var generator: Option<Generator>
    /** The frequency, as the note whose pitch it is; None while it is JUCE's default. */
    var frequencyNote: Option<int>

    constructor ()
      ensures generator == None && frequencyNote == None
    {
      generator := None;
      frequencyNote := None;
    }

    /**
     * setWaveType(choice, amp): a choice in 0..5 installs its shape with amp
     * captured; any other choice reaches jassertfalse, which stops a debug
     * build and leaves the old generator in place otherwise.
     */
    method SetWaveType(choice: int, amp: real) returns (accepted: bool)
      modifies this
      ensures accepted <==> 0 <= choice < 6
      ensures accepted ==> generator == Some(Generator(ShapeOfChoice(choice).value, amp))
      ensures !accepted ==> generator == old(generator)
      ensures frequencyNote == old(frequencyNote)
    {
      var shape := ShapeOfChoice(choice);
      accepted := shape.Some?;
      if accepted {
        generator := Some(Generator(shape.value, amp));
      }
    }

    method SetFrequency(note: int)
      modifies this
      ensures frequencyNote == Some(note) && generator == old(generator)
    {
      frequencyNote := Some(note);
    }

    /** process on a block in place: the generated signal is added to every channel. */
    method Process(buffer: array2<real>, xs: seq<real>, trig: Trig)
      requires generator.Some? && |xs| == buffer.Length1
      modifies buffer
      ensures forall c, i :: 0 <= c < buffer.Length0 && 0 <= i < buffer.Length1 ==>
        buffer[c, i] == old(buffer[c, i]) + Evaluate(generator.value, trig, xs[i])
    {
      AudioBuffer.AddToEveryChannel(buffer, Render(generator.value, trig, xs));
    }
  }

  class SubtractiveSynthesisProcessor {
    /** The gate level the next block is rendered with. */
    var amp: real
    /** car_freq, as the note number it was computed from; None until the first note-on. */
    var carNote: Option<int>
    const osc: OscData
    /** The rate prepareToPlay hands to the oscillator and the filter in their ProcessSpec. */
    var hostSampleRate: real
    /** The arguments of the low-pass design last installed. */
    var filterDesign: FilterDesign

    /** The oscillator is tuned to car_freq (both untouched until the first note-on). */
    ghost predicate Valid()
      reads this, osc
    {
      osc.frequencyNote == carNote
    }

    function Gate(): GateState
      reads this
    {
      GateState(amp, carNote)
    }

    /** Neither the header nor the processor declares amp or car_freq, so amp's first value is a parameter. */
    constructor (initialAmp: real)
      ensures Valid() && fresh(osc)
      ensures amp == initialAmp && carNote == None && osc.generator == None
      ensures filterDesign == InitialDesign()
    {
      amp := initialAmp;
      carNote := None;
      osc := new OscData();
      filterDesign := LowPass(SampleRate, 20000.0, 0.1);
    }

    /** prepareToPlay: the host's rate goes to the oscillator; the filter design keeps SAMPLE_RATE. */
    method PrepareToPlay(sampleRate: real, samplesPerBlock: int)
      modifies this
      ensures hostSampleRate == sampleRate
      ensures amp == old(amp) && carNote == old(carNote) && filterDesign == old(filterDesign)
    {
      hostSampleRate := sampleRate;
    }

    /** The block's MIDI loop: every event is copied, in order and with its time, while the gate follows it. */
    method ProcessMidi(midi: seq<TimedEvent>) returns (processed: seq<TimedEvent>)
      requires Valid()
      modifies this, osc
      ensures Valid()
      ensures processed == midi
      ensures Gate() == Run(old(Gate()), midi)
      ensures osc.generator == old(osc.generator)
      ensures hostSampleRate == old(hostSampleRate) && filterDesign == old(filterDesign)
    {
      processed := [];
      var i := 0;
      while i < |midi|
        invariant 0 <= i <= |midi|
        invariant Valid()
        invariant processed == midi[..i]
        invariant Gate() == Run(old(Gate()), midi[..i])
        invariant osc.generator == old(osc.generator)
        invariant hostSampleRate == old(hostSampleRate) && filterDesign == old(filterDesign)
      {
        var m := midi[i].message;
        if m.NoteOn? {
          amp := GateLevel;
          carNote := Some(m.note);
          osc.SetFrequency(m.note);
        } else if m.NoteOff? {
          amp := 0.0;
        } else if m.Aftertouch? {
        } else if m.PitchWheel? {
        }
        processed := processed + [midi[i]];
        assert midi[..i + 1][..i] == midi[..i];
        i := i + 1;
      }
      assert midi[..|midi|] == midi;
    }

    /** The clearing at the head of processBlock: channels numInputs..numOutputs-1, then the whole buffer. */
    static method PrepareBuffer(buffer: array2<real>, numInputs: nat, numOutputs: nat)
      requires numInputs < numOutputs ==> numOutputs <= buffer.Length0
      modifies buffer
      ensures forall c, i :: 0 <= c < buffer.Length0 && 0 <= i < buffer.Length1 ==> buffer[c, i] == 0.0
    {
      AudioBuffer.ClearChannels(buffer, numInputs, numOutputs);
      AudioBuffer.Clear(buffer);
    }

    /**
     * processBlock. `wave`, `cutoff` and `quality` are the values read from the
     * parameter store. The block is rendered with the gate's FINAL amplitude,
     * whatever the timestamps of the events that set it.
     */
    method ProcessBlock(buffer: array2<real>, numInputs: nat, numOutputs: nat, midi: seq<TimedEvent>,
                        wave: real, cutoff: real, quality: real, xs: seq<real>, trig: Trig)
      returns (midiOut: seq<TimedEvent>, accepted: bool)
      requires Valid()
      requires numInputs < numOutputs ==> numOutputs <= buffer.Length0
      requires |xs| == buffer.Length1
      requires 0 <= ChoiceFromParam(wave) < 6 || osc.generator.Some?
      modifies this, osc, buffer
      ensures Valid()
      ensures midiOut == midi
      ensures Gate() == Run(old(Gate()), midi)
      ensures accepted <==> 0 <= ChoiceFromParam(wave) < 6
      ensures accepted ==> osc.generator == Some(Generator(ShapeOfChoice(ChoiceFromParam(wave)).value, amp))
      ensures !accepted ==> osc.generator == old(osc.generator)
      ensures osc.generator.Some?
      ensures forall c, i :: 0 <= c < buffer.Length0 && 0 <= i < buffer.Length1 ==>
        buffer[c, i] == Evaluate(osc.generator.value, trig, xs[i])
      ensures filterDesign == LowPass(SampleRate, cutoff, quality)
      ensures hostSampleRate == old(hostSampleRate)
    {
      PrepareBuffer(buffer, numInputs, numOutputs);
      midiOut := ProcessMidi(midi);
      accepted := osc.SetWaveType(ChoiceFromParam(wave), amp);
      osc.Process(buffer, xs, trig);
      filterDesign := LowPass(SampleRate, cutoff, quality);
    }
  }

  /**
   * A note-off anywhere in the block silences all of it, even the samples
   * before its timestamp, when no note-on follows it in the block.
   */
  lemma {:induction false} NoteOffSilencesWholeBlock(s: GateState, midi: seq<TimedEvent>, k: nat, shape: Shape, trig: Trig, xs: seq<real>)
    requires k < |midi| && midi[k].message.NoteOff?
    requires forall j :: k < j < |midi| ==> !IsNoteEvent(midi[j].message)
    ensures forall i :: 0 <= i < |xs| ==> Render(Generator(shape, Run(s, midi).amp), trig, xs)[i] == 0.0
  {
    LastNoteEventWins(s, midi, k);
    forall i | 0 <= i < |xs| ensures Render(Generator(shape, Run(s, midi).amp), trig, xs)[i] == 0.0 {
      SilentAtZeroAmplitude(Generator(shape, Run(s, midi).amp), trig, xs[i]);
    }
  }

  /**
   * Likewise a note-on sounds the whole block at GateLevel, when no note-off
   * follows it: every sample is GateLevel times the unit-amplitude shape.
   */
  lemma {:induction false} NoteOnSoundsWholeBlock(s: GateState, midi: seq<TimedEvent>, k: nat, shape: Shape, trig: Trig, xs: seq<real>)
    requires k < |midi| && midi[k].message.NoteOn?
    requires forall j :: k < j < |midi| ==> !IsNoteEvent(midi[j].message)
    ensures forall i :: 0 <= i < |xs| ==>
      Render(Generator(shape, Run(s, midi).amp), trig, xs)[i] == GateLevel * Evaluate(Generator(shape, 1.0), trig, xs[i])
  {
    LastNoteEventWins(s, midi, k);
    forall i | 0 <= i < |xs|
      ensures Render(Generator(shape, Run(s, midi).amp), trig, xs)[i] == GateLevel * Evaluate(Generator(shape, 1.0), trig, xs[i])
    {
      AmplitudeScales(Generator(shape, Run(s, midi).amp), trig, xs[i]);
    }
  }
}
