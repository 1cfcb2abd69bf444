/**
 * Trigger keys of the session registry and the translation of input events
 * (MIDI messages drained from the queue, keys read by the keyboard thread)
 * into start and stop requests.
 */
module Triggers {
  import opened Clips

  /** `(channel, note)` for MIDI triggers, `('keyboard', ord(key))` for key presses. */
  datatype Key = MidiKey(channel: int, note: int) | KeyboardKey(code: int)

  /** The MIDI messages the players look at; every other message type is `OtherMessage`. */
  datatype MidiMsg =
    | NoteOn(channel: int, note: int, velocity: int)
    | NoteOff(channel: int, note: int)
    | OtherMessage

  datatype Command = Start(channel: int, note: int) | Stop(key: Key) | Skip

  /**
   * The dispatch in `process_midi_messages`: a note-on with positive
   * velocity asks for the clip mapped to (channel, note); a note-off, or a
   * note-on with velocity 0, stops the session under key (channel, note).
   */
  function Dispatch(msg: MidiMsg): (c: Command)
    ensures c.Start? <==> msg.NoteOn? && msg.velocity > 0
    ensures c.Stop? <==> msg.NoteOff? || (msg.NoteOn? && msg.velocity == 0)
    ensures c.Start? ==> c.channel == msg.channel && c.note == msg.note
    ensures c.Stop? ==> c.key == MidiKey(msg.channel, msg.note)
  {
    match msg
    case NoteOn(ch, n, v) => if v > 0 then Start(ch, n) else if v == 0 then Stop(MidiKey(ch, n)) else Skip
    case NoteOff(ch, n) => Stop(MidiKey(ch, n))
    case OtherMessage => Skip
  }

  /** The start key a note-on uses. */
  function StartKey(c: Command): Key
    requires c.Start?
  {
    MidiKey(c.channel, c.note)
  }

  datatype KeyAction = Quit | Trigger(clip: Clip, key: Key) | NoAction

  /**
   * One key read by `keyboard_thread`: Ctrl+C (code 3) and 'q' quit before
   * any lookup; a key in `keypress_map` triggers its clip under key
   * `('keyboard', ord(key))`.
   */
  function KeyboardAction(keymap: map<string, Clip>, ch: char): (a: KeyAction)
    ensures a.Quit? <==> ch as int == 3 || ch == 'q'
    ensures a.Trigger? <==> !(ch as int == 3 || ch == 'q') && [ch] in keymap
    ensures a.Trigger? ==> a.clip == keymap[[ch]] && a.key == KeyboardKey(ch as int)
  {
    if ch as int == 3 then Quit
    else if ch == 'q' then Quit
    else if [ch] in keymap then Trigger(keymap[[ch]], KeyboardKey(ch as int))
    else NoAction
  }

  /** No MIDI message stops a keyboard-triggered session. */
  lemma NoteOffSparesKeyboard(msg: MidiMsg, code: int)
    ensures Dispatch(msg).Stop? ==> Dispatch(msg).key != KeyboardKey(code)
  {
  }
}
