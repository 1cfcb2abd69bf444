/**
 * The single-pipeline player of `pareidolia.py`: one playbin whose URI is
 * switched between clips, the clip currently shown, and at most one
 * position-polling loop timer.
 */
module SinglePlayer {
  import opened Wrappers
  import opened Layout
  import opened Clips
  import opened Triggers

  /** An armed `check_loop` timer and the segment it loops over. */
  datatype LoopTimer = LoopTimer(id: Handle, startPos: int, endPos: int)

  /**
   * `current_clip`, `loop_timer_id` with the segment its callback captured,
   * the playbin's URI, the GLib timers still armed and the next timer id.
   */
  datatype Screen = Screen(current: Option<Clip>, timer: Option<LoopTimer>, uri: string, armed: set<Handle>, next: nat)

  function TimerIds(t: Option<LoopTimer>): set<Handle> {
    if t.Some? then {t.value.id} else {}
  }

  /** Exactly the recorded loop timer is armed, and every id handed out is below `next`. */
  predicate OneTimer(s: Screen) {
    s.armed == TimerIds(s.timer) && (s.timer.Some? ==> s.timer.value.id < s.next)
  }

  /**
   * `show_clip`: an exclusive clip equal to the current one is ignored.
   * Otherwise the clip becomes current, the old timer is removed and the URI
   * switched. When pausing fails nothing more happens; otherwise a clip
   * with an end gets a fresh loop timer over its segment.
   */
  function Show(s: Screen, clip: Clip, pauseFailed: bool): Screen {
    if clip.exclusive && s.current == Some(clip) then s
    else
      var s1 := Screen(Some(clip), None, clip.filePath, s.armed - TimerIds(s.timer), s.next);
      if pauseFailed || clip.endSec < 0 then s1
      else s1.(timer := Some(LoopTimer(s.next, clip.startSec, clip.endSec)), armed := s1.armed + {s.next}, next := s.next + 1)
  }

  /** The end-of-stream branch of `on_bus_message`, followed by the `show_clip` it schedules. */
  function EndOfStream(s: Screen, pauseFailed: bool): Screen {
    if s.current.Some? && s.current.value.endSec == -1 then Show(s, s.current.value, pauseFailed) else s
  }

  /** One drained MIDI message, with whether pausing the playbin fails if a clip is shown. */
  datatype ShowEvent = ShowEvent(msg: MidiMsg, pauseFailed: bool)

  /** `process_midi_messages`: only a note-on with positive velocity shows a clip; channels are used as sent. */
  function Step(s: Screen, m: MidiMap, e: ShowEvent): Screen {
    if e.msg.NoteOn? && e.msg.velocity > 0 then
      var found := FindClipForMidi(m, e.msg.channel, e.msg.note);
      if found.Some? then Show(s, found.value, e.pauseFailed) else s
    else s
  }

  function Steps(s: Screen, m: MidiMap, es: seq<ShowEvent>): Screen {
    if es == [] then s else Step(Steps(s, m, es[..|es| - 1]), m, es[|es| - 1])
  }

  // ----- properties ----------------------------------------------------

  /** Re-showing the current exclusive clip is a no-op. */
  lemma ExclusiveSameClipIgnored(s: Screen, clip: Clip, pauseFailed: bool)
    requires clip.exclusive && s.current == Some(clip)
    ensures Show(s, clip, pauseFailed) == s
  {
  }

  /**
   * Otherwise the clip becomes current, the previous timer is no longer
   * armed and the playbin plays the clip's file; at most one timer is armed
   * throughout.
   */
  lemma ShowReplacesTimer(s: Screen, clip: Clip, pauseFailed: bool)
    requires OneTimer(s) && !(clip.exclusive && s.current == Some(clip))
    ensures var r := Show(s, clip, pauseFailed);
      && OneTimer(r)
      && |r.armed| <= 1
      && r.current == Some(clip)
      && r.uri == clip.filePath
      && (s.timer.Some? ==> s.timer.value.id !in r.armed)
  {
  }

  /**
   * A loop timer is armed exactly when pausing succeeded and the clip has
   * an end; it loops over the clip's own segment.
   */
  lemma TimerOnlyWithEnd(s: Screen, clip: Clip, pauseFailed: bool)
    requires !(clip.exclusive && s.current == Some(clip))
    ensures var r := Show(s, clip, pauseFailed);
      && (r.timer.Some? <==> !pauseFailed && clip.endSec >= 0)
      && (r.timer.Some? ==> r.timer.value.startPos == clip.startSec && r.timer.value.endPos == clip.endSec)
  {
  }

  lemma OneTimerKept(s: Screen, m: MidiMap, es: seq<ShowEvent>)
    requires OneTimer(s)
    ensures OneTimer(Steps(s, m, es))
    decreases |es|
  {
    if es != [] {
      OneTimerKept(s, m, es[..|es| - 1]);
      var s1 := Steps(s, m, es[..|es| - 1]);
      var e := es[|es| - 1];
      if e.msg.NoteOn? && e.msg.velocity > 0 {
        var found := FindClipForMidi(m, e.msg.channel, e.msg.note);
        if found.Some? && !(found.value.exclusive && s1.current == Some(found.value)) {
          ShowReplacesTimer(s1, found.value, e.pauseFailed);
        }
      }
    }
  }

  /** At end of stream the current clip is shown again exactly when it plays to the end of its file. */
  lemma EndOfStreamLoopsPlayToEnd(s: Screen, pauseFailed: bool)
    requires s.current.Some? && !s.current.value.exclusive
    ensures s.current.value.endSec == -1 ==>
      EndOfStream(s, pauseFailed).current == s.current && EndOfStream(s, pauseFailed).timer == None
    ensures s.current.value.endSec != -1 ==> EndOfStream(s, pauseFailed) == s
  {
  }

  /** An exclusive clip that plays to the end does not loop: the re-show at end of stream is ignored. */
  lemma ExclusivePlayToEndStops(s: Screen, pauseFailed: bool)
    requires s.current.Some? && s.current.value.exclusive
    ensures EndOfStream(s, pauseFailed) == s
  {
  }

  /** Note-offs, note-ons of velocity 0 and other messages leave the screen alone. */
  lemma OnlyNoteOnShows(s: Screen, m: MidiMap, e: ShowEvent)
    requires !(e.msg.NoteOn? && e.msg.velocity > 0)
    ensures Step(s, m, e) == s
  {
  }

  /** A note-on with positive velocity shows the clip `find_clip_for_midi` picks, or nothing when none is mapped. */
  lemma NoteOnShowsFoundClip(s: Screen, m: MidiMap, e: ShowEvent)
    requires e.msg.NoteOn? && e.msg.velocity > 0
    ensures FindClipForMidi(m, e.msg.channel, e.msg.note).None? ==> Step(s, m, e) == s
    ensures var found := FindClipForMidi(m, e.msg.channel, e.msg.note);
      found.Some? && !found.value.exclusive ==> Step(s, m, e).current == found
  {
  }

  // ----- the player ----------------------------------------------------

  class Player {
    var current: Option<Clip>
    var timer: Option<LoopTimer>
    var uri: string
    var armed: set<Handle>
    var next: nat
    const midiMap: MidiMap
    const keypressMap: map<string, Clip>

    function CurrentScreen(): Screen
      reads this
    {
      Screen(current, timer, uri, armed, next)
    }

    ghost predicate Valid()
      reads this
    {
      OneTimer(CurrentScreen())
    }

    /** The playbin starts on the first configured clip's file with nothing current. */
    constructor (initialUri: string, midiMap: MidiMap, keypressMap: map<string, Clip>)
      ensures Valid() && CurrentScreen() == Screen(None, None, initialUri, {}, 0)
      ensures this.midiMap == midiMap && this.keypressMap == keypressMap
    {
      current := None;
      timer := None;
      uri := initialUri;
      armed := {};
      next := 0;
      this.midiMap := midiMap;
      this.keypressMap := keypressMap;
    }

    method ShowClip(clip: Clip, pauseFailed: bool)
      requires Valid()
      modifies this
      ensures Valid()
      ensures CurrentScreen() == Show(old(CurrentScreen()), clip, pauseFailed)
    {
      if clip.exclusive && current == Some(clip) {
        return;
      }
      current := Some(clip);
      if timer.Some? {
        armed := armed - {timer.value.id};
        timer := None;
      }
      if clip.filePath != uri {
        uri := clip.filePath;
      }
      if pauseFailed {
        return;
      }
      if clip.endSec >= 0 {
        timer := Some(LoopTimer(next, clip.startSec, clip.endSec));
        armed := armed + {next};
        next := next + 1;
      }
    }

    /** The armed `check_loop` callback: seek to the segment start once its end is reached; the timer stays. */
    method TimerTick(position: Option<int>) returns (seekTo: Option<int>, keepPolling: bool)
      requires timer.Some?
      ensures seekTo == CheckLoop(position, timer.value.startPos, timer.value.endPos).seekTo
      ensures seekTo.Some? <==> position.Some? && position.value >= timer.value.endPos
      ensures seekTo.Some? ==> seekTo.value == timer.value.startPos
      ensures keepPolling
    {
      var r := CheckLoop(position, timer.value.startPos, timer.value.endPos);
      seekTo, keepPolling := r.seekTo, r.keepPolling;
    }

    method OnEndOfStream(pauseFailed: bool) returns (reshown: bool)
      requires Valid()
      modifies this
      ensures Valid()
      ensures reshown <==> old(current).Some? && old(current).value.endSec == -1
      ensures CurrentScreen() == EndOfStream(old(CurrentScreen()), pauseFailed)
    {
      reshown := false;
      if current.Some? && current.value.endSec == -1 {
        reshown := true;
        ShowClip(current.value, pauseFailed);
      }
    }

    method ProcessMidiMessages(events: seq<ShowEvent>)
      requires Valid()
      modifies this
      ensures Valid()
      ensures CurrentScreen() == Steps(old(CurrentScreen()), midiMap, events)
    {
      var i := 0;
      while i < |events|
        invariant i <= |events|
        invariant Valid()
        invariant CurrentScreen() == Steps(old(CurrentScreen()), midiMap, events[..i])
      {
        var e := events[i];
        assert events[..i + 1][..i] == events[..i];
        if e.msg.NoteOn? && e.msg.velocity > 0 {
          var found := FindClipForMidi(midiMap, e.msg.channel, e.msg.note);
          if found.Some? {
            ShowClip(found.value, e.pauseFailed);
          }
        }
        i := i + 1;
      }
      assert events[..i] == events;
    }

    /**
     * One key of `keyboard_thread`: Ctrl+C and 'q' ask for shutdown, which
     * leaves the screen state alone; a mapped key shows its clip.
     */
    method HandleKey(ch: char, pauseFailed: bool) returns (quit: bool)
      requires Valid()
      modifies this
      ensures Valid()
      ensures quit <==> KeyboardAction(keypressMap, ch).Quit?
      ensures KeyboardAction(keypressMap, ch).Trigger? ==>
        CurrentScreen() == Show(old(CurrentScreen()), keypressMap[[ch]], pauseFailed)
      ensures !KeyboardAction(keypressMap, ch).Trigger? ==> CurrentScreen() == old(CurrentScreen())
    {
      match KeyboardAction(keypressMap, ch)
      case Quit =>
        quit := true;
      case Trigger(clip, _) =>
        ShowClip(clip, pauseFailed);
        quit := false;
      case NoAction =>
        quit := false;
    }
  }
}
