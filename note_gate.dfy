/**
 * The monophonic note gate of the six-shape processor's processBlock: the
 * block's MIDI events are walked in order; a note-on opens the gate at a fixed
 * level and latches the note's pitch, a note-off closes the gate and keeps the
 * pitch, every other message changes nothing.
 *
 * The pitch is kept as the latched MIDI note number; its conversion to Hz is
 * JUCE's and is outside this model. None means that no note-on has been seen.
 */
module NoteGate {
  import opened Optional
  import opened Midi

  /** The amplitude a note-on sets. */
  const GateLevel: real := 0.1

  /** The processor fields `amp` and `car_freq` (as its note number). */
  datatype GateState = GateState(amp: real, note: Option<int>)

  /** One turn of the block loop. */
  function Step(s: GateState, m: Message): (r: GateState)
    ensures m.NoteOn? ==> r == GateState(GateLevel, Some(m.note))
    ensures m.NoteOff? ==> r.amp == 0.0 && r.note == s.note
    ensures !IsNoteEvent(m) ==> r == s
  {
    if m.NoteOn? then GateState(GateLevel, Some(m.note))
    else if m.NoteOff? then s.(amp := 0.0)
    else if m.Aftertouch? then s
    else if m.PitchWheel? then s
    else s
  }

  /**
   * The state after the loop has consumed `events` in order, starting from `s`.
   * The latched note is the old one or the note of some note-on of the block.
   */
  function Run(s: GateState, events: seq<TimedEvent>): (r: GateState)
    ensures r.note == s.note || exists j :: 0 <= j < |events| && events[j].message.NoteOn? && r.note == Some(events[j].message.note)
    decreases |events|
  {
    if events == [] then s
    else
      var init := events[..|events| - 1];
      var prev := Run(s, init);
      assert forall j :: 0 <= j < |init| ==> init[j] == events[j];
      Step(prev, events[|events| - 1].message)
  }

  /** What of a message the gate can observe. */
  datatype NoteData = On(note: int) | Off | Ignored

  function Observed(m: Message): (d: NoteData)
    ensures d.On? <==> m.NoteOn?
    ensures d.Off? <==> m.NoteOff?
  {
    if m.NoteOn? then On(m.note) else if m.NoteOff? then Off else Ignored
  }

  /** Blocks are consumed one after another: running two blocks is running their concatenation. */
  lemma {:induction false} RunAppend(s: GateState, a: seq<TimedEvent>, b: seq<TimedEvent>)
    ensures Run(s, a + b) == Run(Run(s, a), b)
    decreases |b|
  {
    if b == [] {
      assert a + b == a;
    } else {
      var ab := a + b;
      assert ab[..|ab| - 1] == a + b[..|b| - 1];
      assert ab[|ab| - 1] == b[|b| - 1];
      RunAppend(s, a, b[..|b| - 1]);
    }
  }

  /** A block with no note-on and no note-off leaves both amp and the latched note as they were. */
  lemma {:induction false} NoNoteEventKeepsState(s: GateState, events: seq<TimedEvent>)
    requires forall j :: 0 <= j < |events| ==> !IsNoteEvent(events[j].message)
    ensures Run(s, events) == s
    decreases |events|
  {
    if events != [] {
      var init := events[..|events| - 1];
      forall j | 0 <= j < |init| ensures !IsNoteEvent(init[j].message) {
        assert init[j] == events[j];
      }
      NoNoteEventKeepsState(s, init);
    }
  }

  /** The last note event of the block decides amp: GateLevel after a note-on, 0 after a note-off. */
  lemma {:induction false} LastNoteEventWins(s: GateState, events: seq<TimedEvent>, k: nat)
    requires k < |events| && IsNoteEvent(events[k].message)
    requires forall j :: k < j < |events| ==> !IsNoteEvent(events[j].message)
    ensures Run(s, events).amp == if events[k].message.NoteOn? then GateLevel else 0.0
    decreases |events|
  {
    var init := events[..|events| - 1];
    if k < |events| - 1 {
      assert init[k] == events[k];
      forall j | k < j < |init| ensures !IsNoteEvent(init[j].message) {
        assert init[j] == events[j];
      }
      LastNoteEventWins(s, init, k);
    }
  }

  /** The latched note is the note of the block's last note-on; note-offs never change it. */
  lemma {:induction false} LastNoteOnLatched(s: GateState, events: seq<TimedEvent>, k: nat)
    requires k < |events| && events[k].message.NoteOn?
    requires forall j :: k < j < |events| ==> !events[j].message.NoteOn?
    ensures Run(s, events).note == Some(events[k].message.note)
    decreases |events|
  {
    var init := events[..|events| - 1];
    if k < |events| - 1 {
      assert init[k] == events[k];
      forall j | k < j < |init| ensures !init[j].message.NoteOn? {
        assert init[j] == events[j];
      }
      LastNoteOnLatched(s, init, k);
    }
  }

  /** Without a note-on the latched note survives the block, whatever note-offs it holds. */
  lemma {:induction false} NoNoteOnKeepsNote(s: GateState, events: seq<TimedEvent>)
    requires forall j :: 0 <= j < |events| ==> !events[j].message.NoteOn?
    ensures Run(s, events).note == s.note
    decreases |events|
  {
    if events != [] {
      var init := events[..|events| - 1];
      forall j | 0 <= j < |init| ensures !init[j].message.NoteOn? {
        assert init[j] == events[j];
      }
      NoNoteOnKeepsNote(s, init);
    }
  }

  /**
   * The gate sees only the kind and note number of note events: timestamps,
   * velocities, channels and every other message make no difference.
   */
  lemma {:induction false} RunSeesOnlyNoteData(s: GateState, events: seq<TimedEvent>, others: seq<TimedEvent>)
    requires |events| == |others|
    requires forall j :: 0 <= j < |events| ==> Observed(events[j].message) == Observed(others[j].message)
    ensures Run(s, events) == Run(s, others)
    decreases |events|
  {
    if events != [] {
      var n := |events| - 1;
      var init, init' := events[..n], others[..n];
      forall j | 0 <= j < n ensures Observed(init[j].message) == Observed(init'[j].message) {
        assert init[j] == events[j] && init'[j] == others[j];
      }
      RunSeesOnlyNoteData(s, init, init');
      assert Observed(events[n].message) == Observed(others[n].message);
    }
  }

  /** After any block the gate level is its previous value, GateLevel, or 0. */
  lemma {:induction false} AmpValues(s: GateState, events: seq<TimedEvent>)
    ensures Run(s, events).amp in {s.amp, GateLevel, 0.0}
    decreases |events|
  {
    if events != [] {
      AmpValues(s, events[..|events| - 1]);
    }
  }
}
