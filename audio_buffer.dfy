/**
 * The in-place operations processBlock performs on the host's audio buffer:
 * a channels-by-samples array, buffer[channel, sample]. Clearing channels is
 * the repository's own loop; adding a generated signal to every channel and
 * scaling every sample are what JUCE's oscillator and gain stages do to a
 * block processed in place.
 */
module AudioBuffer {

  /** buffer.clear(ch, 0, numSamples): channel ch becomes silent, the rest is untouched. */
  method ClearChannel(buffer: array2<real>, ch: nat)
    requires ch < buffer.Length0
    modifies buffer
    ensures forall c, i :: 0 <= c < buffer.Length0 && 0 <= i < buffer.Length1 ==>
      buffer[c, i] == if c == ch then 0.0 else old(buffer[c, i])
  {
    var i := 0;
    while i < buffer.Length1
      invariant 0 <= i <= buffer.Length1
      invariant forall c, j :: 0 <= c < buffer.Length0 && 0 <= j < buffer.Length1 ==>
        buffer[c, j] == if c == ch && j < i then 0.0 else old(buffer[c, j])
    {
      buffer[ch, i] := 0.0;
      i := i + 1;
    }
  }

  /** The loop over channels first..last-1 (no turn at all when first >= last). */
  method ClearChannels(buffer: array2<real>, first: nat, last: nat)
    requires first < last ==> last <= buffer.Length0
    modifies buffer
    ensures forall c, i :: 0 <= c < buffer.Length0 && 0 <= i < buffer.Length1 ==>
      buffer[c, i] == if first <= c < last then 0.0 else old(buffer[c, i])
  {
    var ch := first;
    while ch < last
      invariant ch == first || first < ch <= last
      invariant forall c, i :: 0 <= c < buffer.Length0 && 0 <= i < buffer.Length1 ==>
        buffer[c, i] == if first <= c < ch then 0.0 else old(buffer[c, i])
    {
      ClearChannel(buffer, ch);
      ch := ch + 1;
    }
  }

  /** buffer.clear(): every sample of every channel becomes 0. */
  method Clear(buffer: array2<real>)
    modifies buffer
    ensures forall c, i :: 0 <= c < buffer.Length0 && 0 <= i < buffer.Length1 ==> buffer[c, i] == 0.0
  {
    ClearChannels(buffer, 0, buffer.Length0);
  }

  method AddToChannel(buffer: array2<real>, ch: nat, signal: seq<real>)
    requires ch < buffer.Length0 && |signal| == buffer.Length1
    modifies buffer
    ensures forall c, i :: 0 <= c < buffer.Length0 && 0 <= i < buffer.Length1 ==>
      buffer[c, i] == if c == ch then old(buffer[c, i]) + signal[i] else old(buffer[c, i])
  {
    var i := 0;
    while i < buffer.Length1
      invariant 0 <= i <= buffer.Length1
      invariant forall c, j :: 0 <= c < buffer.Length0 && 0 <= j < buffer.Length1 ==>
        buffer[c, j] == if c == ch && j < i then old(buffer[c, j]) + signal[j] else old(buffer[c, j])
    {
      buffer[ch, i] := buffer[ch, i] + signal[i];
      i := i + 1;
    }
  }

  /** Every channel gets the same signal added, sample by sample. */
  method AddToEveryChannel(buffer: array2<real>, signal: seq<real>)
    requires |signal| == buffer.Length1
    modifies buffer
    ensures forall c, i :: 0 <= c < buffer.Length0 && 0 <= i < buffer.Length1 ==>
      buffer[c, i] == old(buffer[c, i]) + signal[i]
  {
    var ch := 0;
    while ch < buffer.Length0
      invariant 0 <= ch <= buffer.Length0
      invariant forall c, i :: 0 <= c < buffer.Length0 && 0 <= i < buffer.Length1 ==>
        buffer[c, i] == if c < ch then old(buffer[c, i]) + signal[i] else old(buffer[c, i])
    {
      AddToChannel(buffer, ch, signal);
      ch := ch + 1;
    }
  }

  method ScaleChannel(buffer: array2<real>, ch: nat, gain: real)
    requires ch < buffer.Length0
    modifies buffer
    ensures forall c, i :: 0 <= c < buffer.Length0 && 0 <= i < buffer.Length1 ==>
      buffer[c, i] == if c == ch then gain * old(buffer[c, i]) else old(buffer[c, i])
  {
    var i := 0;
    while i < buffer.Length1
      invariant 0 <= i <= buffer.Length1
      invariant forall c, j :: 0 <= c < buffer.Length0 && 0 <= j < buffer.Length1 ==>
        buffer[c, j] == if c == ch && j < i then gain * old(buffer[c, j]) else old(buffer[c, j])
    {
      buffer[ch, i] := gain * buffer[ch, i];
      i := i + 1;
    }
  }

  /** Every sample of every channel is multiplied by the same gain. */
  method Scale(buffer: array2<real>, gain: real)
    modifies buffer
    ensures forall c, i :: 0 <= c < buffer.Length0 && 0 <= i < buffer.Length1 ==>
      buffer[c, i] == gain * old(buffer[c, i])
  {
    var ch := 0;
    while ch < buffer.Length0
      invariant 0 <= ch <= buffer.Length0
      invariant forall c, i :: 0 <= c < buffer.Length0 && 0 <= i < buffer.Length1 ==>
        buffer[c, i] == if c < ch then gain * old(buffer[c, i]) else old(buffer[c, i])
    {
      ScaleChannel(buffer, ch, gain);
      ch := ch + 1;
    }
  }
}
