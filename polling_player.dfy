/**
 * The player of `pareidolia_no_ram.py`: pre-processed clips, up to six at
 * once, each looped by a polling timer that seeks back to 0 once the
 * segment end is reached.
 */
module PollingPlayer {
  import opened Wrappers
  import opened OrderedMaps
  import opened Layout
  import opened Clips
  import opened Triggers
  import opened Registry

  const MaxSimultaneousVideos: nat := 6

  /**
   * `add_video`: an exclusive clip whose key is present is ignored; at
   * capacity the oldest session goes first; when the playbin cannot be
   * created nothing more happens; otherwise the session is stored, with a
   * polling timer exactly when the clip has an end.
   */
  function Add(c: Core, clip: Clip, key: Key, now: int, created: bool): Core {
    if clip.exclusive && key in c.active.vals then c
    else
      var c1 := EvictFirst(c, MaxSimultaneousVideos);
      if created then Admit(c1, clip, key, now, 0, clip.endSec >= 0) else c1
  }

  /** The pad geometry after `add_video`: re-laid out after an eviction and after the insertion. */
  function AddGeometry(g: map<Handle, Rect>, c: Core, clip: Clip, key: Key, now: int, created: bool): map<Handle, Rect> {
    if clip.exclusive && key in c.active.vals then g
    else
      var c1 := EvictFirst(c, MaxSimultaneousVideos);
      var g1 := if |c.active.keys| >= MaxSimultaneousVideos then LaidOut(g, Pads(c1.active)) else g;
      if created then LaidOut(g1, Pads(Add(c, clip, key, now, created).active)) else g1
  }

  /** One iteration of the drain loop of `process_midi_messages`. */
  function Step(c: Core, m: MidiMap, e: MidiEvent): Core {
    match Dispatch(e.msg)
    case Start(ch, n) =>
      var found := FindClipForMidi(m, ch, n);
      if found.Some? then Add(c, found.value, MidiKey(ch, n), e.now, e.created) else c
    case Stop(k) => if k in c.active.vals then RemoveKey(c, k) else c
    case Skip => c
  }

  function Steps(c: Core, m: MidiMap, es: seq<MidiEvent>): Core {
    if es == [] then c else Step(Steps(c, m, es[..|es| - 1]), m, es[|es| - 1])
  }

  // ----- properties ----------------------------------------------------

  /** `add_video` keeps the registry invariant, in particular at most six entries. */
  lemma AddWellFormed(c: Core, clip: Clip, key: Key, now: int, created: bool)
    requires WellFormed(c, MaxSimultaneousVideos)
    ensures WellFormed(Add(c, clip, key, now, created), MaxSimultaneousVideos)
    ensures |Add(c, clip, key, now, created).active.keys| <= MaxSimultaneousVideos
  {
    if !(clip.exclusive && key in c.active.vals) {
      EvictOldest(c, MaxSimultaneousVideos);
      var c1 := EvictFirst(c, MaxSimultaneousVideos);
      if created {
        AdmitWellFormed(c1, clip, key, now, 0, clip.endSec >= 0, MaxSimultaneousVideos);
      }
    }
  }

  /**
   * At capacity the oldest key is evicted and the survivors keep their
   * order; the new key, unless one of them, goes last.
   */
  lemma AddAtCapacityEvictsOldest(c: Core, clip: Clip, key: Key, now: int)
    requires WellFormed(c, MaxSimultaneousVideos)
    requires |c.active.keys| == MaxSimultaneousVideos && !(clip.exclusive && key in c.active.vals)
    ensures var r := Add(c, clip, key, now, true);
      && (c.active.keys[0] != key ==> c.active.keys[0] !in r.active.vals)
      && r.active.keys == c.active.keys[1..] + (if key in c.active.keys[1..] then [] else [key])
  {
    AdmitAfterEvict(c, MaxSimultaneousVideos, clip, key, now, 0, clip.endSec >= 0);
  }

  /** An exclusive clip whose key is already playing is ignored, geometry included. */
  lemma ExclusiveRetriggerIgnored(g: map<Handle, Rect>, c: Core, clip: Clip, key: Key, now: int, created: bool)
    requires clip.exclusive && key in c.active.vals
    ensures Add(c, clip, key, now, created) == c
    ensures AddGeometry(g, c, clip, key, now, created) == g
  {
  }

  /** A polling timer is armed exactly for clips with an end, and it is a fresh one. */
  lemma PollTimerOnlyWithEnd(c: Core, clip: Clip, key: Key, now: int)
    requires WellFormed(c, MaxSimultaneousVideos) && !(clip.exclusive && key in c.active.vals)
    ensures var r := Add(c, clip, key, now, true);
      key in r.active.vals
      && (r.active.vals[key].timer.Some? <==> clip.endSec >= 0)
      && (r.active.vals[key].timer.Some? ==> r.active.vals[key].timer.value in r.engine.armed)
      && r.active.vals[key].startPosition == 0
  {
  }

  /** `remove_video` cancels the session's timer and stops its pipeline before deleting the key. */
  lemma RemoveCancelsTimer(c: Core, key: Key)
    requires WellFormed(c, MaxSimultaneousVideos) && key in c.active.vals
    ensures var s := c.active.vals[key];
      var r := RemoveKey(c, key);
      && key !in r.active.vals
      && s.pipeline !in r.engine.playing
      && (s.timer.Some? ==> s.timer.value !in r.engine.armed)
  {
  }

  /**
   * One firing of the `check_loop` timer of the session under `key`: the
   * cut file always starts at 0, so the seek target is 0 and the end is the
   * clip's own `end_sec`. The callback changes no registry state.
   */
  function Poll(c: Core, key: Key, position: Option<int>): LoopCheck
    requires key in c.active.vals
    requires c.active.vals[key].timer.Some? && c.active.vals[key].timer.value in c.engine.armed
  {
    CheckLoop(position, 0, c.active.vals[key].clip.endSec)
  }

  /** An armed poll seeks to 0 exactly when a known position has reached the session's clip end, and keeps polling. */
  lemma PollSeeksToZero(c: Core, key: Key, position: Option<int>)
    requires key in c.active.vals
    requires c.active.vals[key].timer.Some? && c.active.vals[key].timer.value in c.engine.armed
    ensures var r := Poll(c, key, position);
      && r.keepPolling
      && r.seekTo == (if position.Some? && position.value >= c.active.vals[key].clip.endSec then Some(0) else None)
  {
  }

  /**
   * A clip with an end, once started, has an armed poll, and that poll seeks
   * back to 0 exactly when the clip's end is reached.
   */
  lemma StartedClipLoops(c: Core, clip: Clip, key: Key, now: int, position: Option<int>)
    requires WellFormed(c, MaxSimultaneousVideos) && !(clip.exclusive && key in c.active.vals)
    requires clip.endSec >= 0
    ensures var r := Add(c, clip, key, now, true);
      && key in r.active.vals
      && r.active.vals[key].timer.Some? && r.active.vals[key].timer.value in r.engine.armed
      && Poll(r, key, position).seekTo == (if position.Some? && position.value >= clip.endSec then Some(0) else None)
  {
    PollTimerOnlyWithEnd(c, clip, key, now);
  }

  /** A note-off, or a note-on of velocity 0, never touches a keyboard-triggered session. */
  lemma NoteOffKeepsKeyboardSessions(c: Core, m: MidiMap, e: MidiEvent, code: int)
    requires Dispatch(e.msg).Stop? && KeyboardKey(code) in c.active.vals
    ensures KeyboardKey(code) in Step(c, m, e).active.vals
    ensures Step(c, m, e).active.vals[KeyboardKey(code)] == c.active.vals[KeyboardKey(code)]
  {
    NoteOffSparesKeyboard(e.msg, code);
  }

  lemma {:induction false} StepsWellFormed(c: Core, m: MidiMap, es: seq<MidiEvent>)
    requires WellFormed(c, MaxSimultaneousVideos)
    ensures WellFormed(Steps(c, m, es), MaxSimultaneousVideos)
  {
    if es != [] {
      StepsWellFormed(c, m, es[..|es| - 1]);
      StepWellFormed(Steps(c, m, es[..|es| - 1]), m, es[|es| - 1]);
    }
  }

  lemma StepWellFormed(c: Core, m: MidiMap, e: MidiEvent)
    requires WellFormed(c, MaxSimultaneousVideos)
    ensures WellFormed(Step(c, m, e), MaxSimultaneousVideos)
  {
    match Dispatch(e.msg)
    case Start(ch, n) =>
      var found := FindClipForMidi(m, ch, n);
      if found.Some? {
        AddWellFormed(c, found.value, MidiKey(ch, n), e.now, e.created);
      }
    case Stop(k) => RemoveKeyWellFormed(c, k, MaxSimultaneousVideos);
    case Skip =>
  }

  // ----- the player ----------------------------------------------------

  /** The module-level state of the script: the registry, the engine and the compositor. */
  class Player {
    var active: ODict<Key, Session>
    var engine: Engine
    const compositor: Compositor
    const midiMap: MidiMap
    const keypressMap: map<string, Clip>

    function State(): Core
      reads this
    {
      Core(active, engine)
    }

    ghost predicate Valid()
      reads this, compositor
    {
      WellFormed(State(), MaxSimultaneousVideos) && Shown(compositor.geometry, Pads(active))
    }

    constructor (midiMap: MidiMap, keypressMap: map<string, Clip>)
      ensures Valid() && State() == Initial
      ensures this.midiMap == midiMap && this.keypressMap == keypressMap
    {
      active := Empty();
      engine := Initial.engine;
      compositor := new Compositor();
      this.midiMap := midiMap;
      this.keypressMap := keypressMap;
    }

    /** Re-lay out the pads after a change of the registry. */
    method Relayout()
      requires WellFormed(State(), MaxSimultaneousVideos)
      modifies compositor
      ensures Valid()
      ensures compositor.geometry == LaidOut(old(compositor.geometry), Pads(active))
    {
      PadsDistinct(State(), MaxSimultaneousVideos);
      LaidOutShown(compositor.geometry, Pads(active));
      compositor.UpdateLayout(Pads(active));
    }

    method RemoveVideo(key: Key)
      requires Valid()
      modifies this, compositor
      ensures Valid()
      ensures State() == RemoveKey(old(State()), key)
      ensures compositor.geometry ==
        if key in old(active.vals) then LaidOut(old(compositor.geometry), Pads(active)) else old(compositor.geometry)
    {
      if key !in active.vals {
        return;
      }
      ReleaseWellFormed(State(), key, MaxSimultaneousVideos);
      ReleaseSession(key);
      Relayout();
    }

    /** Stop the session's pipeline, cancel its timer and delete its entry. */
    method ReleaseSession(key: Key)
      requires key in active.vals
      modifies this
      ensures State() == Release(old(State()), key)
    {
      var video := active.vals[key];
      if video.timer.Some? {
        engine := engine.(armed := engine.armed - {video.timer.value});
      }
      engine := engine.(playing := engine.playing - {video.pipeline});
      active := Delete(active, key);
    }

    /** The second half of `add_video`: a fresh pipeline, pad and (with an end) timer, stored under the key. */
    method StartSession(clip: Clip, key: Key, now: int)
      modifies this
      ensures State() == Admit(old(State()), clip, key, now, 0, clip.endSec >= 0)
    {
      var h := engine.next;
      var timer: Option<Handle> := if clip.endSec >= 0 then Some(h + 2) else None;
      engine := Engine(engine.playing + {h}, engine.armed + OptSet(timer), h + 3);
      active := Put(active, key, Session(clip, key, h, h + 1, timer, now, 0));
    }

    /** The capacity check of `add_video`: at six sessions the oldest is removed. */

    method MakeRoom()
      requires Valid()
      modifies this, compositor
      ensures Valid()
      ensures State() == EvictFirst(old(State()), MaxSimultaneousVideos)
      ensures |active.keys| < MaxSimultaneousVideos
      ensures compositor.geometry ==
        if |old(active.keys)| >= MaxSimultaneousVideos then LaidOut(old(compositor.geometry), Pads(active))
        else old(compositor.geometry)
    {
      EvictOldest(State(), MaxSimultaneousVideos);
      if |active.keys| >= MaxSimultaneousVideos {
        RemoveVideo(active.keys[0]);
      }
    }

    method AddVideo(clip: Clip, key: Key, now: int, created: bool)
      requires Valid()
      modifies this, compositor
      ensures Valid()
      ensures State() == Add(old(State()), clip, key, now, created)
      ensures compositor.geometry == AddGeometry(old(compositor.geometry), old(State()), clip, key, now, created)
    {
      if clip.exclusive && key in active.vals {
        return;
      }
      MakeRoom();
      if !created {
        return;
      }
      AdmitWellFormed(State(), clip, key, now, 0, clip.endSec >= 0, MaxSimultaneousVideos);
      StartSession(clip, key, now);
      Relayout();
    }

    method ProcessMidiMessages(events: seq<MidiEvent>)
      requires Valid()
      modifies this, compositor
      ensures Valid()
      ensures State() == Steps(old(State()), midiMap, events)
    {
      var i := 0;
      while i < |events|
        invariant i <= |events|
        invariant Valid()
        invariant State() == Steps(old(State()), midiMap, events[..i])
      {
        var e := events[i];
        assert events[..i + 1][..i] == events[..i];
        match Dispatch(e.msg) {
          case Start(ch, n) =>
            var found := FindClipForMidi(midiMap, ch, n);
            if found.Some? {
              AddVideo(found.value, MidiKey(ch, n), e.now, e.created);
            }
          case Stop(k) =>
            if k in active.vals {
              RemoveVideo(k);
            }
          case Skip =>
        }
        i := i + 1;
      }
      assert events[..i] == events;
    }

    /** The `check_loop` callback of the session under `key`; it reads the registry and changes nothing. */
    method PollTick(key: Key, position: Option<int>) returns (seekTo: Option<int>, keepPolling: bool)
      requires key in active.vals
      requires active.vals[key].timer.Some? && active.vals[key].timer.value in engine.armed
      ensures LoopCheck(seekTo, keepPolling) == Poll(State(), key, position)
      ensures seekTo.Some? <==> position.Some? && position.value >= active.vals[key].clip.endSec
      ensures seekTo.Some? ==> seekTo.value == 0
      ensures keepPolling
    {
      var r := CheckLoop(position, 0, active.vals[key].clip.endSec);
      seekTo, keepPolling := r.seekTo, r.keepPolling;
    }

    /** `shutdown`: remove every session, over a snapshot of the keys. */
    method Shutdown()
      requires Valid()
      modifies this, compositor
      ensures Valid()
      ensures State() == RemoveAll(old(State()), old(active.keys))
      ensures active.keys == [] && active.vals == map[]
    {
      var snapshot := active.keys;
      var i := 0;
      while i < |snapshot|
        invariant i <= |snapshot|
        invariant Valid()
        invariant State() == RemoveAll(old(State()), snapshot[..i])
      {
        assert snapshot[..i + 1][..i] == snapshot[..i];
        RemoveVideo(snapshot[i]);
        i := i + 1;
      }
      assert snapshot[..i] == snapshot;
      RemoveAllEmpties(old(State()), MaxSimultaneousVideos);
    }

    /**
     * One key read by `keyboard_thread`, followed by the main-loop call it
     * schedules: Ctrl+C and 'q' shut down, a mapped key adds its clip under
     * its keyboard key.
     */
    method HandleKey(ch: char, now: int, created: bool) returns (quit: bool)
      requires Valid()
      modifies this, compositor
      ensures Valid()
      ensures quit <==> KeyboardAction(keypressMap, ch).Quit?
      ensures quit ==> active.vals == map[]
      ensures KeyboardAction(keypressMap, ch).Trigger? ==>
        State() == Add(old(State()), keypressMap[[ch]], KeyboardKey(ch as int), now, created)
      ensures KeyboardAction(keypressMap, ch).NoAction? ==> State() == old(State())
    {
      match KeyboardAction(keypressMap, ch)
      case Quit =>
        Shutdown();
        quit := true;
      case Trigger(clip, key) =>
        AddVideo(clip, key, now, created);
        quit := false;
      case NoAction =>
        quit := false;
    }
  }
}
