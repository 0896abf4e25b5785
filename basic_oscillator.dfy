/**
 * The four-shape processor (BasicOscillatorAudioProcessor): a free-running
 * oscillator at a fixed frequency, a fixed linear gain, then a low-pass filter.
 * It has no note handling: the block's MIDI events are left as they came.
 *
 * As in the six-shape processor, the oscillator's generator arguments for a
 * block are an input `xs`, and the buffer a block leaves is the signal handed
 * to the filter.
 */
module BasicOscillator {
  import opened Optional
  import opened Midi
  import opened Waveforms
  import opened Filter
  import opened Parameters
  import AudioBuffer

  function BasicRender(s: BasicShape, trig: Trig, xs: seq<real>): seq<real>
  {
    seq(|xs|, i requires 0 <= i < |xs| => BasicEvaluate(s, trig, xs[i]))
  }

  /** The level prepareToPlay gives the gain stage. */
  const GainLevel: real := 0.1
  /** The frequency prepareToPlay gives the oscillator, in Hz. */
  const OscFrequency: real := 220.0

  /** JUCE's oscillator starts at this frequency, in Hz, until setFrequency is called. */
  const DefaultOscFrequency: real := 440.0

  class OscData {
    var generator: Option<BasicShape>
    var frequency: real

    constructor ()
      ensures generator == None && frequency == DefaultOscFrequency
    {
      generator := None;
      frequency := DefaultOscFrequency;
    }

    /** setWaveType(choice): choices 0..3 install their shape; any other reaches jassertfalse and installs nothing. */
    method SetWaveType(choice: int) returns (accepted: bool)
      modifies this
      ensures accepted <==> 0 <= choice < 4
      ensures accepted ==> generator == BasicShapeOfChoice(choice)
      ensures !accepted ==> generator == old(generator)
      ensures frequency == old(frequency)
    {
      var shape := BasicShapeOfChoice(choice);
      accepted := shape.Some?;
      if accepted {
        generator := shape;
      }
    }

    method SetFrequency(hz: real)
      modifies this
      ensures frequency == hz && generator == old(generator)
    {
      frequency := hz;
    }

    /** process on a block in place: the generated signal is added to every channel. */
    method Process(buffer: array2<real>, xs: seq<real>, trig: Trig)
      requires generator.Some? && |xs| == buffer.Length1
      modifies buffer
      ensures forall c, i :: 0 <= c < buffer.Length0 && 0 <= i < buffer.Length1 ==>
        buffer[c, i] == old(buffer[c, i]) + BasicEvaluate(generator.value, trig, xs[i])
    {
      AudioBuffer.AddToEveryChannel(buffer, BasicRender(generator.value, trig, xs));
    }
  }

  /** The gain stage: a linear factor applied to every sample of a block. */
  class Gain {
    var gainLinear: real

    /** JUCE's gain stage starts at a linear gain of 0 until setGainLinear is called. */
    constructor ()
      ensures gainLinear == 0.0
    {
      gainLinear := 0.0;
    }

    method SetGainLinear(g: real)
      modifies this
      ensures gainLinear == g
    {
      gainLinear := g;
    }

    method Process(buffer: array2<real>)
      modifies buffer
      ensures forall c, i :: 0 <= c < buffer.Length0 && 0 <= i < buffer.Length1 ==>
        buffer[c, i] == gainLinear * old(buffer[c, i])
    {
      AudioBuffer.Scale(buffer, gainLinear);
    }
  }

  class BasicOscillatorProcessor {
    const osc: OscData
    const gain: Gain
    /** The rate prepareToPlay hands to the oscillator, gain and filter in their ProcessSpec. */
    var hostSampleRate: real
    var filterDesign: FilterDesign

    constructor ()
      ensures fresh(osc) && fresh(gain) && osc.generator == None
      ensures osc.frequency == DefaultOscFrequency && gain.gainLinear == 0.0
      ensures filterDesign == InitialDesign()
    {
      osc := new OscData();
      gain := new Gain();
      filterDesign := LowPass(SampleRate, 20000.0, 0.1);
    }

    /** prepareToPlay: fixes the oscillator at 220 Hz and the gain at 0.1. */
    method PrepareToPlay(sampleRate: real, samplesPerBlock: int)
      modifies this, osc, gain
      ensures osc.frequency == OscFrequency && gain.gainLinear == GainLevel
      ensures osc.generator == old(osc.generator)
      ensures hostSampleRate == sampleRate && filterDesign == old(filterDesign)
    {
      hostSampleRate := sampleRate;
      osc.SetFrequency(220.0);
      gain.SetGainLinear(0.10);
    }

    /**
     * processBlock: channels numInputs..numOutputs-1 are cleared (the others
     * keep their input), then oscillator, then gain, then the filter design.
     * Neither the frequency nor the gain is changed, and the MIDI events are
     * handed back as they came.
     */
    method ProcessBlock(buffer: array2<real>, numInputs: nat, numOutputs: nat, midi: seq<TimedEvent>,
                        wave: real, cutoff: real, quality: real, xs: seq<real>, trig: Trig)
      returns (midiOut: seq<TimedEvent>, accepted: bool)
      requires numInputs < numOutputs ==> numOutputs <= buffer.Length0
      requires |xs| == buffer.Length1
      requires 0 <= ChoiceFromParam(wave) < 4 || osc.generator.Some?
      modifies this, osc, buffer
      ensures midiOut == midi
      ensures accepted <==> 0 <= ChoiceFromParam(wave) < 4
      ensures accepted ==> osc.generator == BasicShapeOfChoice(ChoiceFromParam(wave))
      ensures !accepted ==> osc.generator == old(osc.generator)
      ensures osc.generator.Some?
      ensures osc.frequency == old(osc.frequency) && gain.gainLinear == old(gain.gainLinear)
      ensures forall c, i :: 0 <= c < buffer.Length0 && 0 <= i < buffer.Length1 ==>
        buffer[c, i] == gain.gainLinear *
          ((if numInputs <= c < numOutputs then 0.0 else old(buffer[c, i])) + BasicEvaluate(osc.generator.value, trig, xs[i]))
      ensures filterDesign == LowPass(SampleRate, cutoff, quality)
      ensures hostSampleRate == old(hostSampleRate)
    {
      AudioBuffer.ClearChannels(buffer, numInputs, numOutputs);
      accepted := osc.SetWaveType(ChoiceFromParam(wave));
      osc.Process(buffer, xs, trig);
      gain.Process(buffer);
      filterDesign := LowPass(SampleRate, cutoff, quality);
      midiOut := midi;
    }
  }
}
