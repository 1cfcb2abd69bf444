/**
 * The session registry of `old_pareidolia_with_ram.py`: up to four clips
 * at once, each played from memory by its own appsrc feed. Creating the
 * pipeline cannot fail here and no loop timer is ever armed.
 */
module RamPlayer {
  import opened Wrappers
  import opened OrderedMaps
  import opened Layout
  import opened Clips
  import opened Triggers
  import opened Registry

  const MaxSimultaneousVideos: nat := 4

  /**
   * `add_video`: an exclusive clip whose key is present is ignored;
   * otherwise, after evicting the oldest session at capacity, the session
   * is always created and stored.
   */
  function Add(c: Core, clip: Clip, key: Key, now: int): Core {
    if clip.exclusive && key in c.active.vals then c
    else Admit(EvictFirst(c, MaxSimultaneousVideos), clip, key, now, 0, false)
  }

  function AddGeometry(g: map<Handle, Rect>, c: Core, clip: Clip, key: Key, now: int): map<Handle, Rect> {
    if clip.exclusive && key in c.active.vals then g
    else
      var g1 := if |c.active.keys| >= MaxSimultaneousVideos then LaidOut(g, Pads(EvictFirst(c, MaxSimultaneousVideos).active)) else g;
      LaidOut(g1, Pads(Add(c, clip, key, now).active))
  }

  function Step(c: Core, m: MidiMap, e: MidiEvent): Core {
    match Dispatch(e.msg)
    case Start(ch, n) =>
      var found := FindClipForMidi(m, ch, n);
      if found.Some? then Add(c, found.value, MidiKey(ch, n), e.now) else c
    case Stop(k) => if k in c.active.vals then RemoveKey(c, k) else c
    case Skip => c
  }

  function Steps(c: Core, m: MidiMap, es: seq<MidiEvent>): Core {
    if es == [] then c else Step(Steps(c, m, es[..|es| - 1]), m, es[|es| - 1])
  }

  // ----- properties ----------------------------------------------------

  lemma AddWellFormed(c: Core, clip: Clip, key: Key, now: int)
    requires WellFormed(c, MaxSimultaneousVideos)
    ensures WellFormed(Add(c, clip, key, now), MaxSimultaneousVideos)
    ensures |Add(c, clip, key, now).active.keys| <= MaxSimultaneousVideos
  {
    if !(clip.exclusive && key in c.active.vals) {
      EvictOldest(c, MaxSimultaneousVideos);
      AdmitWellFormed(EvictFirst(c, MaxSimultaneousVideos), clip, key, now, 0, false, MaxSimultaneousVideos);
    }
  }

  /** No failure path: unless ignored, the key is present afterwards with the new clip, and no timer is armed. */
  lemma AddAlwaysInserts(c: Core, clip: Clip, key: Key, now: int)
    requires WellFormed(c, MaxSimultaneousVideos) && !(clip.exclusive && key in c.active.vals)
    ensures var r := Add(c, clip, key, now);
      && key in r.active.vals
      && r.active.vals[key].clip == clip
      && r.active.vals[key].timer == None
      && r.engine.armed <= c.engine.armed
  {
    EvictOldest(c, MaxSimultaneousVideos);
  }

  lemma AddAtCapacityEvictsOldest(c: Core, clip: Clip, key: Key, now: int)
    requires WellFormed(c, MaxSimultaneousVideos)
    requires |c.active.keys| == MaxSimultaneousVideos && !(clip.exclusive && key in c.active.vals)
    ensures var r := Add(c, clip, key, now);
      && (c.active.keys[0] != key ==> c.active.keys[0] !in r.active.vals)
      && r.active.keys == c.active.keys[1..] + (if key in c.active.keys[1..] then [] else [key])
  {
    AdmitAfterEvict(c, MaxSimultaneousVideos, clip, key, now, 0, false);
  }

  lemma ExclusiveRetriggerIgnored(c: Core, clip: Clip, key: Key, now: int)
    requires clip.exclusive && key in c.active.vals
    ensures Add(c, clip, key, now) == c
  {
  }

  /** A note-off removes the session under its key when there is one and otherwise changes nothing. */
  lemma NoteOffRemovesIfPresent(c: Core, m: MidiMap, e: MidiEvent)
    requires WellFormed(c, MaxSimultaneousVideos) && Dispatch(e.msg).Stop?
    ensures var k := MidiKey(e.msg.channel, e.msg.note);
      && (k !in c.active.vals ==> Step(c, m, e) == c)
      && k !in Step(c, m, e).active.vals
      && Step(c, m, e).active.vals == c.active.vals - {k}
  {
  }

  lemma StepWellFormed(c: Core, m: MidiMap, e: MidiEvent)
    requires WellFormed(c, MaxSimultaneousVideos)
    ensures WellFormed(Step(c, m, e), MaxSimultaneousVideos)
  {
    match Dispatch(e.msg)
    case Start(ch, n) =>
      var found := FindClipForMidi(m, ch, n);
      if found.Some? {
        AddWellFormed(c, found.value, MidiKey(ch, n), e.now);
      }
    case Stop(k) => RemoveKeyWellFormed(c, k, MaxSimultaneousVideos);
    case Skip =>
  }

  lemma {:induction false} StepsWellFormed(c: Core, m: MidiMap, es: seq<MidiEvent>)
    requires WellFormed(c, MaxSimultaneousVideos)
    ensures WellFormed(Steps(c, m, es), MaxSimultaneousVideos)
  {
    if es != [] {
      StepsWellFormed(c, m, es[..|es| - 1]);
      StepWellFormed(Steps(c, m, es[..|es| - 1]), m, es[|es| - 1]);
    }
  }

  // ----- the player ----------------------------------------------------

  class Player {
    var active: ODict<Key, Session>
    var engine: Engine
    const compositor: Compositor
    const midiMap: MidiMap
    const keypressMap: map<string, Clip>

    function State(): Core
      reads this
    {
      Core(active, engine)
    }

    ghost predicate Valid()
      reads this, compositor
    {
      WellFormed(State(), MaxSimultaneousVideos) && Shown(compositor.geometry, Pads(active))
    }

    constructor (midiMap: MidiMap, keypressMap: map<string, Clip>)
      ensures Valid() && State() == Initial
      ensures this.midiMap == midiMap && this.keypressMap == keypressMap
    {
      active := Empty();
      engine := Initial.engine;
      compositor := new Compositor();
      this.midiMap := midiMap;
      this.keypressMap := keypressMap;
    }

    method Relayout()
      requires WellFormed(State(), MaxSimultaneousVideos)
      modifies compositor
      ensures Valid()
      ensures compositor.geometry == LaidOut(old(compositor.geometry), Pads(active))
    {
      PadsDistinct(State(), MaxSimultaneousVideos);
      LaidOutShown(compositor.geometry, Pads(active));
      compositor.UpdateLayout(Pads(active));
    }

    method RemoveVideo(key: Key)
      requires Valid()
      modifies this, compositor
      ensures Valid()
      ensures State() == RemoveKey(old(State()), key)
      ensures compositor.geometry ==
        if key in old(active.vals) then LaidOut(old(compositor.geometry), Pads(active)) else old(compositor.geometry)
    {
      if key !in active.vals {
        return;
      }
      ReleaseWellFormed(State(), key, MaxSimultaneousVideos);
      ReleaseSession(key);
      Relayout();
    }

    /** Stop the session's pipeline, cancel its timer and delete its entry. */
    method ReleaseSession(key: Key)
      requires key in active.vals
      modifies this
      ensures State() == Release(old(State()), key)
    {
      var video := active.vals[key];
      engine := engine.(playing := engine.playing - {video.pipeline}, armed := engine.armed - OptSet(video.timer));
      active := Delete(active, key);
    }


    method MakeRoom()
      requires Valid()
      modifies this, compositor
      ensures Valid()
      ensures State() == EvictFirst(old(State()), MaxSimultaneousVideos)
      ensures |active.keys| < MaxSimultaneousVideos
      ensures compositor.geometry ==
        if |old(active.keys)| >= MaxSimultaneousVideos then LaidOut(old(compositor.geometry), Pads(active))
        else old(compositor.geometry)
    {
      EvictOldest(State(), MaxSimultaneousVideos);
      if |active.keys| >= MaxSimultaneousVideos {
        RemoveVideo(active.keys[0]);
      }
    }

    /** `create_ram_pipeline` and the rest of `add_video`: fresh pipeline and pad, no loop timer. */
    method StartSession(clip: Clip, key: Key, now: int)
      modifies this
      ensures State() == Admit(old(State()), clip, key, now, 0, false)
    {
      var h := engine.next;
      engine := engine.(playing := engine.playing + {h}, next := h + 3);
      active := Put(active, key, Session(clip, key, h, h + 1, None, now, 0));
    }

    method AddVideo(clip: Clip, key: Key, now: int)
      requires Valid()
      modifies this, compositor
      ensures Valid()
      ensures State() == Add(old(State()), clip, key, now)
      ensures compositor.geometry == AddGeometry(old(compositor.geometry), old(State()), clip, key, now)
    {
      if clip.exclusive && key in active.vals {
        return;
      }
      MakeRoom();
      AdmitWellFormed(State(), clip, key, now, 0, false, MaxSimultaneousVideos);
      StartSession(clip, key, now);
      Relayout();
    }

    method ProcessMidiMessages(events: seq<MidiEvent>)
      requires Valid()
      modifies this, compositor
      ensures Valid()
      ensures State() == Steps(old(State()), midiMap, events)
    {
      var i := 0;
      while i < |events|
        invariant i <= |events|
        invariant Valid()
        invariant State() == Steps(old(State()), midiMap, events[..i])
      {
        var e := events[i];
        assert events[..i + 1][..i] == events[..i];
        match Dispatch(e.msg) {
          case Start(ch, n) =>
            var found := FindClipForMidi(midiMap, ch, n);
            if found.Some? {
              AddVideo(found.value, MidiKey(ch, n), e.now);
            }
          case Stop(k) =>
            if k in active.vals {
              RemoveVideo(k);
            }
          case Skip =>
        }
        i := i + 1;
      }
      assert events[..i] == events;
    }

    method Shutdown()
      requires Valid()
      modifies this, compositor
      ensures Valid()
      ensures State() == RemoveAll(old(State()), old(active.keys))
      ensures active.keys == [] && active.vals == map[]
    {
      var snapshot := active.keys;
      var i := 0;
      while i < |snapshot|
        invariant i <= |snapshot|
        invariant Valid()
        invariant State() == RemoveAll(old(State()), snapshot[..i])
      {
        assert snapshot[..i + 1][..i] == snapshot[..i];
        RemoveVideo(snapshot[i]);
        i := i + 1;
      }
      assert snapshot[..i] == snapshot;
      RemoveAllEmpties(old(State()), MaxSimultaneousVideos);
    }

    /** One key read by `keyboard_thread`, followed by the main-loop call it schedules. */
    method HandleKey(ch: char, now: int) returns (quit: bool)
      requires Valid()
      modifies this, compositor
      ensures Valid()
      ensures quit <==> KeyboardAction(keypressMap, ch).Quit?
      ensures quit ==> active.vals == map[]
      ensures KeyboardAction(keypressMap, ch).Trigger? ==>
        State() == Add(old(State()), keypressMap[[ch]], KeyboardKey(ch as int), now)
      ensures KeyboardAction(keypressMap, ch).NoAction? ==> State() == old(State())
    {
      match KeyboardAction(keypressMap, ch)
      case Quit =>
        Shutdown();
        quit := true;
      case Trigger(clip, key) =>
        AddVideo(clip, key, now);
        quit := false;
      case NoAction =>
        quit := false;
    }
  }
}
