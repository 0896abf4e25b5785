/**
 * MIDI events as the processor's block loop sees them: a message, already
 * classified the way JUCE's MidiMessage queries classify it, and the sample
 * position (timestamp) it was delivered at.
 */
module Midi {

  datatype Message =
    | NoteOn(channel: int, note: int, velocity: int)
    | NoteOff(channel: int, note: int, velocity: int)
    | Aftertouch(channel: int, note: int, pressure: int)
    | PitchWheel(channel: int, value: int)
    | OtherMessage(raw: seq<int>)

  datatype TimedEvent = TimedEvent(message: Message, time: int)

  /** Note-on and note-off are the only kinds the note gate reacts to. */
  predicate IsNoteEvent(m: Message) {
    m.NoteOn? || m.NoteOff?
  }
}
