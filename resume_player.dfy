/**
 * The player of `pareidolia_with_no_ram.py`: up to four pre-processed clips
 * at once, each resuming where the last session of the same file stopped
 * (unless `restart_on_play` is set), restarted at end of stream and,
 * optionally, by a loop timer.
 */
module ResumePlayer {
  import opened Wrappers
  import opened OrderedMaps
  import opened Layout
  import opened Clips
  import opened Triggers
  import opened Registry

  const MaxSimultaneousVideos: nat := 4

  /** One entry of `clip_playback_data`: the stored position and, once a session has started, its start time. */
  datatype Playback = Playback(position: int, startTime: Option<int>)

  /** The registry with the position tracker, keyed by file URI. */
  datatype PlayerState = PlayerState(core: Core, playback: map<string, Playback>)

  /** The position update of `remove_video`: the time since the recorded start is added to the stored position. */
  function Accumulate(pb: map<string, Playback>, file: string, now: int): map<string, Playback> {
    if file in pb && pb[file].startTime.Some? then
      pb[file := pb[file].(position := pb[file].position + (now - pb[file].startTime.value))]
    else pb
  }

  /** `remove_video`: an absent key changes nothing; otherwise the position is updated and the session stopped. */
  function Remove(s: PlayerState, key: Key, now: int): PlayerState {
    if key in s.core.active.vals then
      PlayerState(Release(s.core, key), Accumulate(s.playback, s.core.active.vals[key].clip.filePath, now))
    else s
  }

  function Evict(s: PlayerState, now: int): PlayerState {
    if |s.core.active.keys| >= MaxSimultaneousVideos then Remove(s, s.core.active.keys[0], now) else s
  }

  /** Where `add_video` asks the new playbin to start. */
  function StartPosition(pb: map<string, Playback>, clip: Clip): int {
    if !clip.restartOnPlay && clip.filePath in pb then pb[clip.filePath].position else 0
  }

  /** The tracker changes of `add_video` before the playbin is created. */
  function Prepare(pb: map<string, Playback>, clip: Clip): map<string, Playback> {
    var f := clip.filePath;
    if f !in pb then pb[f := Playback(0, None)]
    else if clip.restartOnPlay then pb[f := pb[f].(position := 0)]
    else pb
  }

  /**
   * `add_video`: an exclusive clip whose key is present is ignored; at
   * capacity the oldest session is removed; the start position is chosen
   * and the tracker prepared; when the playbin cannot be created nothing
   * more happens; otherwise the session is stored (with a loop timer when
   * `loop_duration_ms` is positive) and its start time recorded.
   */
  function Add(s: PlayerState, clip: Clip, key: Key, now: int, created: bool): PlayerState {
    if clip.exclusive && key in s.core.active.vals then s
    else
      var s1 := Evict(s, now);
      var pos := StartPosition(s1.playback, clip);
      var pb := Prepare(s1.playback, clip);
      if !created then PlayerState(s1.core, pb)
      else
        PlayerState(Admit(s1.core, clip, key, now, pos, clip.loopDurationMs > 0),
                    pb[clip.filePath := pb[clip.filePath].(startTime := Some(now))])
  }

  function AddGeometry(g: map<Handle, Rect>, s: PlayerState, clip: Clip, key: Key, now: int, created: bool): map<Handle, Rect> {
    if clip.exclusive && key in s.core.active.vals then g
    else
      var g1 := if |s.core.active.keys| >= MaxSimultaneousVideos then LaidOut(g, Pads(Evict(s, now).core.active)) else g;
      if created then LaidOut(g1, Pads(Add(s, clip, key, now, created).core.active)) else g1
  }

  /** The end-of-stream branch of `on_playbin_message` for a playbin carrying `key` and `clip`. */
  function EndOfStream(s: PlayerState, key: Key, clip: Clip): PlayerState {
    if key in s.core.active.vals && clip.filePath in s.playback then
      s.(playback := s.playback[clip.filePath := s.playback[clip.filePath].(position := 0)])
    else s
  }

  /** `restart_clip_at_end`, and the body of the `restart_clip` loop timer: remove, then add again. */
  function RestartAtEnd(s: PlayerState, key: Key, clip: Clip, now: int, created: bool): PlayerState {
    if key in s.core.active.vals then Add(Remove(s, key, now), clip, key, now, created) else s
  }

  /** A `restart_clip` timer firing: the restart, after which the timer returns False and is gone. */
  function AfterLoopTimer(s: PlayerState, fired: Handle, key: Key, clip: Clip, now: int, created: bool): PlayerState {
    var r := RestartAtEnd(s, key, clip, now, created);
    r.(core := r.core.(engine := r.core.engine.(armed := r.core.engine.armed - {fired})))
  }

  function Step(s: PlayerState, m: MidiMap, e: MidiEvent): PlayerState {
    match Dispatch(e.msg)
    case Start(ch, n) =>
      var found := FindClipForMidi(m, ch, n);
      if found.Some? then Add(s, found.value, MidiKey(ch, n), e.now, e.created) else s
    case Stop(k) => if k in s.core.active.vals then Remove(s, k, e.now) else s
    case Skip => s
  }

  function Steps(s: PlayerState, m: MidiMap, es: seq<MidiEvent>): PlayerState {
    if es == [] then s else Step(Steps(s, m, es[..|es| - 1]), m, es[|es| - 1])
  }

  /** The removal loop of `shutdown`. */
  function RemoveEach(s: PlayerState, ks: seq<Key>, now: int): PlayerState {
    if ks == [] then s else Remove(RemoveEach(s, ks[..|ks| - 1], now), ks[|ks| - 1], now)
  }

  // ----- registry properties -------------------------------------------

  lemma EvictWellFormed(s: PlayerState, now: int)
    requires WellFormed(s.core, MaxSimultaneousVideos)
    ensures Evict(s, now).core == Registry.EvictFirst(s.core, MaxSimultaneousVideos)
    ensures WellFormed(Evict(s, now).core, MaxSimultaneousVideos)
    ensures |Evict(s, now).core.active.keys| < MaxSimultaneousVideos
  {
    EvictOldest(s.core, MaxSimultaneousVideos);
  }

  /** After any `add_video` the registry holds at most four sessions, and the invariant holds. */
  lemma AddWellFormed(s: PlayerState, clip: Clip, key: Key, now: int, created: bool)
    requires WellFormed(s.core, MaxSimultaneousVideos)
    ensures WellFormed(Add(s, clip, key, now, created).core, MaxSimultaneousVideos)
    ensures |Add(s, clip, key, now, created).core.active.keys| <= MaxSimultaneousVideos
  {
    if !(clip.exclusive && key in s.core.active.vals) {
      EvictWellFormed(s, now);
      var s1 := Evict(s, now);
      if created {
        AdmitWellFormed(s1.core, clip, key, now, StartPosition(s1.playback, clip), clip.loopDurationMs > 0, MaxSimultaneousVideos);
      }
    }
  }

  lemma RemoveWellFormed(s: PlayerState, key: Key, now: int)
    requires WellFormed(s.core, MaxSimultaneousVideos)
    ensures Remove(s, key, now).core == Registry.RemoveKey(s.core, key)
    ensures WellFormed(Remove(s, key, now).core, MaxSimultaneousVideos)
  {
    Registry.RemoveKeyWellFormed(s.core, key, MaxSimultaneousVideos);
  }

  /** At capacity the oldest key is evicted; the survivors keep their order and the new key goes last. */
  lemma AddAtCapacityEvictsOldest(s: PlayerState, clip: Clip, key: Key, now: int)
    requires WellFormed(s.core, MaxSimultaneousVideos)
    requires |s.core.active.keys| == MaxSimultaneousVideos && !(clip.exclusive && key in s.core.active.vals)
    ensures var ks := s.core.active.keys;
      var r := Add(s, clip, key, now, true);
      && (ks[0] != key ==> ks[0] !in r.core.active.vals)
      && r.core.active.keys == ks[1..] + (if key in ks[1..] then [] else [key])
  {
    EvictWellFormed(s, now);
    AdmitAfterEvict(s.core, MaxSimultaneousVideos, clip, key, now,
      StartPosition(Evict(s, now).playback, clip), clip.loopDurationMs > 0);
  }

  /** Failed start still evicts: the oldest session is gone even though no new one started. */
  lemma FailedStartStillEvicts(s: PlayerState, clip: Clip, key: Key, now: int)
    requires WellFormed(s.core, MaxSimultaneousVideos)
    requires |s.core.active.keys| == MaxSimultaneousVideos && !(clip.exclusive && key in s.core.active.vals)
    ensures var r := Add(s, clip, key, now, false);
      && r.core.active.keys == s.core.active.keys[1..]
      && s.core.active.keys[0] !in r.core.active.vals
      && |r.core.active.keys| == MaxSimultaneousVideos - 1
  {
    assert Add(s, clip, key, now, false).core == Evict(s, now).core;
    EvictWellFormed(s, now);
    EvictOldest(s.core, MaxSimultaneousVideos);
  }

  /** An exclusive re-trigger changes neither the registry nor the stored positions. */
  lemma ExclusiveRetriggerIgnored(s: PlayerState, clip: Clip, key: Key, now: int, created: bool)
    requires clip.exclusive && key in s.core.active.vals
    ensures Add(s, clip, key, now, created) == s
  {
  }

  /** Removing an absent key changes nothing, positions included. */
  lemma RemoveAbsentIgnored(s: PlayerState, key: Key, now: int)
    requires key !in s.core.active.vals
    ensures Remove(s, key, now) == s
  {
  }

  /** Removing a present key deletes exactly that key and touches no other file's position. */
  lemma RemoveExactlyThatKey(s: PlayerState, j: nat, now: int)
    requires WellFormed(s.core, MaxSimultaneousVideos) && j < |s.core.active.keys|
    ensures var k := s.core.active.keys[j];
      var r := Remove(s, k, now);
      && r.core.active.keys == s.core.active.keys[..j] + s.core.active.keys[j + 1..]
      && r.core.active.vals == s.core.active.vals - {k}
      && r.playback.Keys == s.playback.Keys
      && (forall f | f in s.playback && f != s.core.active.vals[k].clip.filePath :: r.playback[f] == s.playback[f])
  {
    RemoveExactly(s.core, j, MaxSimultaneousVideos);
  }

  /**
   * A non-exclusive re-trigger of a present key overwrites the session in
   * place. Below capacity the key order is unchanged. At capacity the oldest
   * session is evicted first: when that is another key, the re-triggered key
   * keeps its place among the survivors; when it is the re-triggered key
   * itself, the key is stopped and then goes last. Unless it was evicted, the
   * old pipeline is left playing, owned by no session.
   */
  lemma RetriggerOverwritesInPlace(s: PlayerState, clip: Clip, key: Key, now: int)
    requires WellFormed(s.core, MaxSimultaneousVideos)
    requires key in s.core.active.vals && !clip.exclusive
    ensures var prev := s.core.active.vals[key];
      var ks := s.core.active.keys;
      var r := Add(s, clip, key, now, true);
      && key in r.core.active.vals && r.core.active.vals[key].clip == clip
      && (forall k | k in r.core.active.vals :: r.core.active.vals[k].pipeline != prev.pipeline)
      && (|ks| < MaxSimultaneousVideos ==>
            && r.core.active.keys == ks
            && prev.pipeline in r.core.engine.playing
            && s.core.engine.playing <= r.core.engine.playing
            && s.core.engine.armed <= r.core.engine.armed)
      && (|ks| == MaxSimultaneousVideos && ks[0] != key ==>
            r.core.active.keys == ks[1..] && prev.pipeline in r.core.engine.playing)
      && (|ks| == MaxSimultaneousVideos && ks[0] == key ==>
            r.core.active.keys == ks[1..] + [key] && prev.pipeline !in r.core.engine.playing)
  {
    RetriggerReplacesSession(s, clip, key, now);
    if |s.core.active.keys| < MaxSimultaneousVideos {
      RetriggerBelowCapacity(s, clip, key, now);
    } else {
      RetriggerAtCapacity(s, clip, key, now);
    }
  }

  /** After a re-trigger the key holds the new clip and no session owns the old pipeline. */
  lemma RetriggerReplacesSession(s: PlayerState, clip: Clip, key: Key, now: int)
    requires WellFormed(s.core, MaxSimultaneousVideos)
    requires key in s.core.active.vals && !clip.exclusive
    ensures var prev := s.core.active.vals[key];
      var r := Add(s, clip, key, now, true);
      && key in r.core.active.vals && r.core.active.vals[key].clip == clip
      && (forall k | k in r.core.active.vals :: r.core.active.vals[k].pipeline != prev.pipeline)
  {
    var prev := s.core.active.vals[key];
    var r := Add(s, clip, key, now, true);
    EvictWellFormed(s, now);
    var e := Evict(s, now).core;
    assert Owned(prev, s.core.engine.next);
    forall k | k in r.core.active.vals
      ensures r.core.active.vals[k].pipeline != prev.pipeline
    {
      if k != key {
        assert k in e.active.vals;
        EvictedSessionsUnchanged(s, now, k);
      }
    }
  }

  /** Eviction keeps the sessions of the keys it does not remove. */
  lemma EvictedSessionsUnchanged(s: PlayerState, now: int, k: Key)
    requires WellFormed(s.core, MaxSimultaneousVideos)
    requires k in Evict(s, now).core.active.vals
    ensures k in s.core.active.vals && Evict(s, now).core.active.vals[k] == s.core.active.vals[k]
  {
    EvictWellFormed(s, now);
  }

  /** The below-capacity case of `RetriggerOverwritesInPlace`. */
  lemma RetriggerBelowCapacity(s: PlayerState, clip: Clip, key: Key, now: int)
    requires WellFormed(s.core, MaxSimultaneousVideos)
    requires key in s.core.active.vals && !clip.exclusive && |s.core.active.keys| < MaxSimultaneousVideos
    ensures var prev := s.core.active.vals[key];
      var r := Add(s, clip, key, now, true);
      && r.core.active.keys == s.core.active.keys
      && prev.pipeline in r.core.engine.playing
      && s.core.engine.playing <= r.core.engine.playing
      && s.core.engine.armed <= r.core.engine.armed
  {
    assert Evict(s, now) == s;
  }

  /** The capacity case of `RetriggerOverwritesInPlace`. */
  lemma RetriggerAtCapacity(s: PlayerState, clip: Clip, key: Key, now: int)
    requires WellFormed(s.core, MaxSimultaneousVideos)
    requires key in s.core.active.vals && !clip.exclusive && |s.core.active.keys| == MaxSimultaneousVideos
    ensures var prev := s.core.active.vals[key];
      var ks := s.core.active.keys;
      var r := Add(s, clip, key, now, true);
      && (ks[0] != key ==> r.core.active.keys == ks[1..] && prev.pipeline in r.core.engine.playing)
      && (ks[0] == key ==> r.core.active.keys == ks[1..] + [key] && prev.pipeline !in r.core.engine.playing)
  {
    var prev := s.core.active.vals[key];
    var ks := s.core.active.keys;
    EvictWellFormed(s, now);
    EvictOldest(s.core, MaxSimultaneousVideos);
    var e := Evict(s, now).core;
    var gone := s.core.active.vals[ks[0]];
    assert e == Release(s.core, ks[0]);
    assert e.engine.playing == s.core.engine.playing - {gone.pipeline};
    assert Owned(prev, s.core.engine.next);
    if ks[0] != key {
      assert gone.pipeline != prev.pipeline;
      assert key in e.active.vals;
    } else {
      assert key !in e.active.vals;
    }
  }

  /** A restart, from end of stream or from the loop timer, moves the key to the back of the order. */
  lemma RestartMovesToBack(s: PlayerState, j: nat, clip: Clip, now: int)
    requires WellFormed(s.core, MaxSimultaneousVideos) && j < |s.core.active.keys|
    ensures var ks := s.core.active.keys;
      var r := RestartAtEnd(s, ks[j], clip, now, true);
      r.core.active.keys == ks[..j] + ks[j + 1..] + [ks[j]]
      && r.core.active.vals[ks[j]].clip == clip
  {
    var key := s.core.active.keys[j];
    RemoveExactly(s.core, j, MaxSimultaneousVideos);
    RemoveWellFormed(s, key, now);
    ReleaseWellFormed(s.core, key, MaxSimultaneousVideos);
    var s1 := Remove(s, key, now);
    assert key !in s1.core.active.vals;
    EvictWellFormed(s1, now);
  }

  lemma RestartWellFormed(s: PlayerState, key: Key, clip: Clip, now: int, created: bool)
    requires WellFormed(s.core, MaxSimultaneousVideos)
    ensures WellFormed(RestartAtEnd(s, key, clip, now, created).core, MaxSimultaneousVideos)
  {
    if key in s.core.active.vals {
      RemoveWellFormed(s, key, now);
      AddWellFormed(Remove(s, key, now), clip, key, now, created);
    }
  }

  /** A firing loop timer is gone afterwards, and the restarted session arms a fresh one. */
  lemma LoopTimerRearms(s: PlayerState, fired: Handle, key: Key, clip: Clip, now: int)
    requires WellFormed(s.core, MaxSimultaneousVideos) && key in s.core.active.vals
    requires s.core.active.vals[key].timer == Some(fired) && clip.loopDurationMs > 0
    ensures var r := AfterLoopTimer(s, fired, key, clip, now, true);
      && WellFormed(r.core, MaxSimultaneousVideos)
      && fired !in r.core.engine.armed
      && key in r.core.active.vals
      && r.core.active.vals[key].timer.Some?
      && r.core.active.vals[key].timer.value in r.core.engine.armed
  {
    RestartWellFormed(s, key, clip, now, true);
    RemoveWellFormed(s, key, now);
    var s1 := Remove(s, key, now);
    assert key !in s1.core.active.vals;
    EvictWellFormed(s1, now);
    assert s1.core.engine.next == s.core.engine.next;
  }

  // ----- position tracking ---------------------------------------------

  /** `remove_video` adds the time since the recorded start to the stored position. */
  lemma RemoveAccumulates(s: PlayerState, key: Key, now: int, t0: int)
    requires key in s.core.active.vals
    requires var f := s.core.active.vals[key].clip.filePath;
      f in s.playback && s.playback[f].startTime == Some(t0)
    ensures var f := s.core.active.vals[key].clip.filePath;
      var r := Remove(s, key, now);
      f in r.playback && r.playback[f].position == s.playback[f].position + (now - t0)
  {
  }

  /**
   * `add_video` with `restart_on_play` unset starts where the tracker says;
   * the start time is recorded both in the session and in the tracker.
   */
  lemma AddResumes(s: PlayerState, clip: Clip, key: Key, now: int)
    requires !(clip.exclusive && key in s.core.active.vals) && !clip.restartOnPlay
    ensures var pb := Evict(s, now).playback;
      var r := Add(s, clip, key, now, true);
      && key in r.core.active.vals
      && r.core.active.vals[key].startPosition == (if clip.filePath in pb then pb[clip.filePath].position else 0)
      && r.core.active.vals[key].startTime == now
      && clip.filePath in r.playback
      && r.playback[clip.filePath].position == r.core.active.vals[key].startPosition
      && r.playback[clip.filePath].startTime == Some(now)
  {
  }

  /** With `restart_on_play` the position is zeroed and the session starts at 0. */
  lemma AddRestartsAtZero(s: PlayerState, clip: Clip, key: Key, now: int, created: bool)
    requires !(clip.exclusive && key in s.core.active.vals) && clip.restartOnPlay
    ensures var r := Add(s, clip, key, now, created);
      && clip.filePath in r.playback && r.playback[clip.filePath].position == 0
      && (created ==> r.core.active.vals[key].startPosition == 0 && r.playback[clip.filePath].startTime == Some(now))
  {
  }

  /**
   * The position round trip: a session of a file started at `t0` and
   * stopped at `t1` leaves the position `p0 + (t1 - t0)`, and the next
   * trigger of that clip starts exactly there.
   */
  lemma ResumeWhereLeftOff(s: PlayerState, clip: Clip, key: Key, t0: int, t1: int, t2: int)
    requires WellFormed(s.core, MaxSimultaneousVideos)
    requires key !in s.core.active.vals && |s.core.active.keys| < MaxSimultaneousVideos
    requires !clip.restartOnPlay
    ensures var p0 := StartPosition(s.playback, clip);
      var a := Add(s, clip, key, t0, true);
      var b := Remove(a, key, t1);
      && a.core.active.vals[key].startPosition == p0
      && b.playback[clip.filePath].position == p0 + (t1 - t0)
      && Add(b, clip, key, t2, true).core.active.vals[key].startPosition == p0 + (t1 - t0)
  {
    var f := clip.filePath;
    assert Evict(s, t0) == s;
    AddResumes(s, clip, key, t0);
    var a := Add(s, clip, key, t0, true);
    AddWellFormed(s, clip, key, t0, true);
    assert |a.core.active.keys| == |s.core.active.keys| + 1;
    RemoveAccumulates(a, key, t1, t0);
    var b := Remove(a, key, t1);
    ReleaseWellFormed(a.core, key, MaxSimultaneousVideos);
    assert key !in b.core.active.vals && |b.core.active.keys| < MaxSimultaneousVideos;
    assert Evict(b, t2) == b;
    AddResumes(b, clip, key, t2);
  }

  /**
   * End of stream does not restart at 0: the position reset at end of
   * stream is overwritten by the position update of the `remove_video`
   * inside the restart, which then resumes `now - t0` into the clip.
   */
  lemma EndOfStreamResumesAtElapsed(s: PlayerState, key: Key, now: int, t0: int)
    requires WellFormed(s.core, MaxSimultaneousVideos) && key in s.core.active.vals
    requires var c := s.core.active.vals[key].clip;
      !c.restartOnPlay && c.filePath in s.playback && s.playback[c.filePath].startTime == Some(t0)
    ensures var c := s.core.active.vals[key].clip;
      var r := RestartAtEnd(EndOfStream(s, key, c), key, c, now, true);
      r.core.active.vals[key].startPosition == now - t0
  {
    var c := s.core.active.vals[key].clip;
    var e := EndOfStream(s, key, c);
    var s1 := Remove(e, key, now);
    RemoveWellFormed(e, key, now);
    ReleaseWellFormed(e.core, key, MaxSimultaneousVideos);
    assert key !in s1.core.active.vals;
    assert s1.playback[c.filePath].position == now - t0;
  }

  /** A concrete instance: a clip that started at tick 0 and ended at tick 10 restarts 10 ticks in. */
  lemma EndOfStreamExample(s: PlayerState, key: Key)
    requires WellFormed(s.core, MaxSimultaneousVideos) && key in s.core.active.vals
    requires var c := s.core.active.vals[key].clip;
      !c.restartOnPlay && c.filePath in s.playback && s.playback[c.filePath].startTime == Some(0)
    ensures var c := s.core.active.vals[key].clip;
      RestartAtEnd(EndOfStream(s, key, c), key, c, 10, true).core.active.vals[key].startPosition != 0
  {
    EndOfStreamResumesAtElapsed(s, key, 10, 0);
  }

  /** The restart the end-of-stream branch evidently intends: the position is reset after the removal. */
  function RestartFromStart(s: PlayerState, key: Key, clip: Clip, now: int, created: bool): PlayerState {
    if key in s.core.active.vals then
      var s1 := Remove(s, key, now);
      var s2 := if clip.filePath in s1.playback
        then s1.(playback := s1.playback[clip.filePath := s1.playback[clip.filePath].(position := 0)])
        else s1;
      Add(s2, clip, key, now, created)
    else s
  }

  /** The corrected restart starts at 0 and otherwise changes the registry exactly like the written one. */
  lemma RestartFromStartBeginsAtZero(s: PlayerState, key: Key, clip: Clip, now: int)
    requires WellFormed(s.core, MaxSimultaneousVideos) && key in s.core.active.vals
    ensures var r := RestartFromStart(s, key, clip, now, true);
      && key in r.core.active.vals
      && r.core.active.vals[key].startPosition == 0
      && r.core.active.keys == RestartAtEnd(s, key, clip, now, true).core.active.keys
  {
    var s1 := Remove(s, key, now);
    RemoveWellFormed(s, key, now);
    ReleaseWellFormed(s.core, key, MaxSimultaneousVideos);
    assert key !in s1.core.active.vals;
  }

  // ----- event loop and shutdown ---------------------------------------

  lemma StepWellFormed(s: PlayerState, m: MidiMap, e: MidiEvent)
    requires WellFormed(s.core, MaxSimultaneousVideos)
    ensures WellFormed(Step(s, m, e).core, MaxSimultaneousVideos)
  {
    match Dispatch(e.msg)
    case Start(ch, n) =>
      var found := FindClipForMidi(m, ch, n);
      if found.Some? {
        AddWellFormed(s, found.value, MidiKey(ch, n), e.now, e.created);
      }
    case Stop(k) => RemoveWellFormed(s, k, e.now);
    case Skip =>
  }

  lemma {:induction false} StepsWellFormed(s: PlayerState, m: MidiMap, es: seq<MidiEvent>)
    requires WellFormed(s.core, MaxSimultaneousVideos)
    ensures WellFormed(Steps(s, m, es).core, MaxSimultaneousVideos)
  {
    if es != [] {
      StepsWellFormed(s, m, es[..|es| - 1]);
      StepWellFormed(Steps(s, m, es[..|es| - 1]), m, es[|es| - 1]);
    }
  }

  /** On the registry, the removal loop of `shutdown` is the shared one. */
  lemma {:induction false} RemoveEachCore(s: PlayerState, ks: seq<Key>, now: int)
    ensures RemoveEach(s, ks, now).core == RemoveAll(s.core, ks)
  {
    if ks != [] {
      RemoveEachCore(s, ks[..|ks| - 1], now);
    }
  }

  /** Removing sessions updates positions in the tracker but never adds or drops a file. */
  lemma {:induction false} RemoveEachKeepsFiles(s: PlayerState, ks: seq<Key>, now: int)
    ensures RemoveEach(s, ks, now).playback.Keys == s.playback.Keys
  {
    if ks != [] {
      RemoveEachKeepsFiles(s, ks[..|ks| - 1], now);
    }
  }

  /**
   * `shutdown` leaves the registry empty, stops the pipeline of every
   * session, and the tracker keeps every file it knew.
   */
  lemma ShutdownEmpties(s: PlayerState, now: int)
    requires WellFormed(s.core, MaxSimultaneousVideos)
    ensures var r := RemoveEach(s, s.core.active.keys, now);
      r.core.active.keys == [] && r.core.active.vals == map[] && WellFormed(r.core, MaxSimultaneousVideos)
    ensures var r := RemoveEach(s, s.core.active.keys, now);
      forall k | k in s.core.active.vals :: s.core.active.vals[k].pipeline !in r.core.engine.playing
    ensures RemoveEach(s, s.core.active.keys, now).playback.Keys == s.playback.Keys
  {
    RemoveEachCore(s, s.core.active.keys, now);
    RemoveAllEmpties(s.core, MaxSimultaneousVideos);
    RemoveEachKeepsFiles(s, s.core.active.keys, now);
  }

  // ----- the player ----------------------------------------------------

  /** The module-level state of the script: registry, engine, tracker and compositor. */
  class Player {
    var active: ODict<Key, Session>
    var engine: Engine
    var playback: map<string, Playback>
    const compositor: Compositor
    const midiMap: MidiMap

    function Current(): PlayerState
      reads this
    {
      PlayerState(Core(active, engine), playback)
    }

    ghost predicate Valid()
      reads this, compositor
    {
      WellFormed(Core(active, engine), MaxSimultaneousVideos) && Shown(compositor.geometry, Pads(active))
    }

    constructor (midiMap: MidiMap)
      ensures Valid() && Current() == PlayerState(Initial, map[]) && this.midiMap == midiMap
    {
      active := Empty();
      engine := Initial.engine;
      playback := map[];
      compositor := new Compositor();
      this.midiMap := midiMap;
    }

    method Relayout()
      requires WellFormed(Core(active, engine), MaxSimultaneousVideos)
      modifies compositor
      ensures Valid()
      ensures compositor.geometry == LaidOut(old(compositor.geometry), Pads(active))
    {
      PadsDistinct(Core(active, engine), MaxSimultaneousVideos);
      LaidOutShown(compositor.geometry, Pads(active));
      compositor.UpdateLayout(Pads(active));
    }

    /** The position update at the top of `remove_video`. */
    method RecordElapsed(file: string, now: int)
      modifies this
      ensures playback == Accumulate(old(playback), file, now)
      ensures active == old(active) && engine == old(engine)
    {
      if file in playback && playback[file].startTime.Some? {
        var elapsed := now - playback[file].startTime.value;
        playback := playback[file := playback[file].(position := playback[file].position + elapsed)];
      }
    }

    /** Cancel the session's timer, stop its pipeline and delete its key. */
    method ReleaseSession(key: Key)
      requires key in active.vals
      modifies this
      ensures Core(active, engine) == Release(old(Core(active, engine)), key)
      ensures playback == old(playback)
    {
      var video := active.vals[key];
      if video.timer.Some? {
        engine := engine.(armed := engine.armed - {video.timer.value});
      }
      engine := engine.(playing := engine.playing - {video.pipeline});
      active := Delete(active, key);
    }

    method RemoveVideo(key: Key, now: int)
      requires Valid()
      modifies this, compositor
      ensures Valid()
      ensures Current() == Remove(old(Current()), key, now)
      ensures compositor.geometry ==
        if key in old(active.vals) then LaidOut(old(compositor.geometry), Pads(active)) else old(compositor.geometry)
    {
      if key !in active.vals {
        return;
      }
      RecordElapsed(active.vals[key].clip.filePath, now);
      ReleaseWellFormed(Core(active, engine), key, MaxSimultaneousVideos);
      ReleaseSession(key);
      Relayout();
    }

    method MakeRoom(now: int)
      requires Valid()
      modifies this, compositor
      ensures Valid()
      ensures Current() == Evict(old(Current()), now)
      ensures |active.keys| < MaxSimultaneousVideos
      ensures compositor.geometry ==
        if |old(active.keys)| >= MaxSimultaneousVideos then LaidOut(old(compositor.geometry), Pads(active))
        else old(compositor.geometry)
    {
      EvictWellFormed(Current(), now);
      if |active.keys| >= MaxSimultaneousVideos {
        RemoveVideo(active.keys[0], now);
      }
    }

    method StartSession(clip: Clip, key: Key, now: int, startPosition: int, withTimer: bool)
      modifies this
      ensures Core(active, engine) == Admit(old(Core(active, engine)), clip, key, now, startPosition, withTimer)
      ensures playback == old(playback)
    {
      var h := engine.next;
      var timer: Option<Handle> := if withTimer then Some(h + 2) else None;
      engine := Engine(engine.playing + {h}, engine.armed + OptSet(timer), h + 3);
      active := Put(active, key, Session(clip, key, h, h + 1, timer, now, startPosition));
    }

    /** The start-position choice of `add_video` and the tracker changes that go with it. */
    method ChooseStart(clip: Clip) returns (startPosition: int)
      modifies this
      ensures startPosition == StartPosition(old(playback), clip)
      ensures playback == Prepare(old(playback), clip)
      ensures active == old(active) && engine == old(engine)
    {
      var file := clip.filePath;
      startPosition := 0;
      if !clip.restartOnPlay && file in playback {
        startPosition := playback[file].position;
      } else if file in playback {
        playback := playback[file := playback[file].(position := 0)];
      }
      if file !in playback {
        playback := playback[file := Playback(0, None)];
      }
    }

    method AddVideo(clip: Clip, key: Key, now: int, created: bool)
      requires Valid()
      modifies this, compositor
      ensures Valid()
      ensures Current() == Add(old(Current()), clip, key, now, created)
      ensures compositor.geometry == AddGeometry(old(compositor.geometry), old(Current()), clip, key, now, created)
    {
      if clip.exclusive && key in active.vals {
        return;
      }
      MakeRoom(now);
      var startPosition := ChooseStart(clip);
      if !created {
        return;
      }
      Launch(clip, key, now, startPosition);
    }

    /** The part of `add_video` after the playbin was created: store the session, stamp `start_time`, re-lay out. */
    method Launch(clip: Clip, key: Key, now: int, startPosition: int)
      requires WellFormed(Core(active, engine), MaxSimultaneousVideos)
      requires |active.keys| < MaxSimultaneousVideos && clip.filePath in playback
      modifies this, compositor
      ensures Valid()
      ensures Core(active, engine) == Admit(old(Core(active, engine)), clip, key, now, startPosition, clip.loopDurationMs > 0)
      ensures playback == old(playback)[clip.filePath := old(playback)[clip.filePath].(startTime := Some(now))]
      ensures compositor.geometry == LaidOut(old(compositor.geometry), Pads(active))
    {
      AdmitWellFormed(Core(active, engine), clip, key, now, startPosition, clip.loopDurationMs > 0, MaxSimultaneousVideos);
      StartSession(clip, key, now, startPosition, clip.loopDurationMs > 0);
      playback := playback[clip.filePath := playback[clip.filePath].(startTime := Some(now))];
      Relayout();
    }

    /** The end-of-stream branch of `on_playbin_message`; the result says whether a restart was scheduled. */
    method OnEndOfStream(key: Key, clip: Clip) returns (restart: bool)
      modifies this
      ensures Current() == EndOfStream(old(Current()), key, clip)
      ensures restart <==> key in active.vals
    {
      restart := false;
      if key in active.vals {
        if clip.filePath in playback {
          playback := playback[clip.filePath := playback[clip.filePath].(position := 0)];
        }
        restart := true;
      }
    }

    method RestartClipAtEnd(key: Key, clip: Clip, now: int, created: bool)
      requires Valid()
      modifies this, compositor
      ensures Valid()
      ensures Current() == RestartAtEnd(old(Current()), key, clip, now, created)
    {
      if key in active.vals {
        RemoveVideo(key, now);
        AddVideo(clip, key, now, created);
      }
    }

    /** The corrected end-of-stream restart: remove, forget the recorded position, add again. */
    method RestartClipFromStart(key: Key, clip: Clip, now: int, created: bool)
      requires Valid()
      modifies this, compositor
      ensures Valid()
      ensures Current() == RestartFromStart(old(Current()), key, clip, now, created)
    {
      if key in active.vals {
        RemoveVideo(key, now);
        if clip.filePath in playback {
          playback := playback[clip.filePath := playback[clip.filePath].(position := 0)];
        }
        AddVideo(clip, key, now, created);
      }
    }

    /** The `restart_clip` loop-timer callback for the timer `fired`. */
    method LoopTimerFired(fired: Handle, key: Key, clip: Clip, now: int, created: bool)
      requires Valid()
      modifies this, compositor
      ensures Valid()
      ensures Current() == AfterLoopTimer(old(Current()), fired, key, clip, now, created)
    {
      RestartClipAtEnd(key, clip, now, created);
      engine := engine.(armed := engine.armed - {fired});
    }

    method ProcessMidiMessages(events: seq<MidiEvent>)
      requires Valid()
      modifies this, compositor
      ensures Valid()
      ensures Current() == Steps(old(Current()), midiMap, events)
    {
      var i := 0;
      while i < |events|
        invariant i <= |events|
        invariant Valid()
        invariant Current() == Steps(old(Current()), midiMap, events[..i])
      {
        var e := events[i];
        assert events[..i + 1][..i] == events[..i];
        match Dispatch(e.msg) {
          case Start(ch, n) =>
            var found := FindClipForMidi(midiMap, ch, n);
            if found.Some? {
              AddVideo(found.value, MidiKey(ch, n), e.now, e.created);
            }
          case Stop(k) =>
            if k in active.vals {
              RemoveVideo(k, e.now);
            }
          case Skip =>
        }
        i := i + 1;
      }
      assert events[..i] == events;
    }

    method Shutdown(now: int)
      requires Valid()
      modifies this, compositor
      ensures Valid()
      ensures Current() == RemoveEach(old(Current()), old(active.keys), now)
      ensures active.keys == [] && active.vals == map[]
    {
      var snapshot := active.keys;
      var i := 0;
      while i < |snapshot|
        invariant i <= |snapshot|
        invariant Valid()
        invariant Current() == RemoveEach(old(Current()), snapshot[..i], now)
      {
        assert snapshot[..i + 1][..i] == snapshot[..i];
        RemoveVideo(snapshot[i], now);
        i := i + 1;
      }
      assert snapshot[..i] == snapshot;
      ShutdownEmpties(old(Current()), now);
    }
  }
}
