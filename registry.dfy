/**
 * The part of the session registry the three multi-video players share:
 * the `ActiveVideo` record, the engine objects a session owns, and the two
 * primitive registry changes every `add_video` and `remove_video` is built
 * from (admit a new session, stop a present one).
 */
module Registry {
  import opened Wrappers
  import opened OrderedMaps
  import opened Layout
  import opened Clips
  import opened Triggers

  /**
   * One `ActiveVideo`: the clip, its key, the playback pipeline, the
   * compositor pad, the optional GLib timer, when it started and from which
   * clip position the engine was asked to start.
   */
  datatype Session = Session(
    clip: Clip,
    key: Key,
    pipeline: Handle,
    pad: Handle,
    timer: Option<Handle>,
    startTime: int,
    startPosition: int)

  /**
   * Engine-side bookkeeping: pipelines not yet set to NULL, GLib timers still
   * armed, and the next unused handle (every created object is fresh).
   */
  datatype Engine = Engine(playing: set<Handle>, armed: set<Handle>, next: nat)

  /** `active_videos` together with the engine objects. */
  datatype Core = Core(active: ODict<Key, Session>, engine: Engine)

  /**
   * One MIDI message drained from the queue, with the clock reading when it
   * is handled and whether a playbin it starts can be created.
   */
  datatype MidiEvent = MidiEvent(now: int, msg: MidiMsg, created: bool)

  const Initial: Core := Core(Empty(), Engine({}, {}, 0))

  function OptSet(t: Option<Handle>): set<Handle> {
    if t.Some? then {t.value} else {}
  }

  /** The compositor pads of the sessions, oldest first. */
  function Pads(d: ODict<Key, Session>): (r: seq<Handle>)
    ensures |r| == |d.keys|
    ensures forall i | 0 <= i < |d.keys| && d.keys[i] in d.vals :: r[i] == d.vals[d.keys[i]].pad
  {
    seq(|d.keys|, i requires 0 <= i < |d.keys| =>
      if d.keys[i] in d.vals then d.vals[d.keys[i]].pad else 0)
  }

  predicate Owned(s: Session, next: nat) {
    s.pipeline < next && s.pad < next && (s.timer.Some? ==> s.timer.value < next)
  }

  /**
   * The registry invariant: an ordered dictionary with at most `cap`
   * entries, each stored under its own key, each owning a playing pipeline
   * and a pad that no other session shares.
   */
  predicate WellFormed(c: Core, cap: nat) {
    var d := c.active;
    && Valid(d)
    && |d.keys| <= cap
    && (forall k | k in d.vals :: d.vals[k].key == k && d.vals[k].pipeline in c.engine.playing)
    && (forall k | k in d.vals :: Owned(d.vals[k], c.engine.next))
    && (forall k1, k2 | k1 in d.vals && k2 in d.vals && k1 != k2 ::
          d.vals[k1].pad != d.vals[k2].pad && d.vals[k1].pipeline != d.vals[k2].pipeline)
  }

  lemma InitialWellFormed(cap: nat)
    ensures WellFormed(Initial, cap) && Pads(Initial.active) == []
  {
  }

  lemma PadsDistinct(c: Core, cap: nat)
    requires WellFormed(c, cap)
    ensures Distinct(Pads(c.active))
  {
    var d := c.active;
    forall i, j | 0 <= i < j < |d.keys|
      ensures Pads(d)[i] != Pads(d)[j]
    {
      assert d.keys[i] != d.keys[j];
    }
  }

  /**
   * The common body of `remove_video` for a present key: cancel the timer,
   * set the pipeline to NULL and delete the key.
   */
  function Release(c: Core, key: Key): Core
    requires key in c.active.vals
  {
    var s := c.active.vals[key];
    Core(Delete(c.active, key),
         Engine(c.engine.playing - {s.pipeline}, c.engine.armed - OptSet(s.timer), c.engine.next))
  }

  /**
   * Create a session: a fresh pipeline, a fresh compositor pad and, when
   * asked, a fresh timer; then `active_videos[key] = ...`.
   */
  function Admit(c: Core, clip: Clip, key: Key, now: int, startPosition: int, withTimer: bool): Core {
    var h := c.engine.next;
    var timer := if withTimer then Some(h + 2) else None;
    var s := Session(clip, key, h, h + 1, timer, now, startPosition);
    Core(Put(c.active, key, s), Engine(c.engine.playing + {h}, c.engine.armed + OptSet(timer), h + 3))
  }

  /** Stopping a present session keeps the invariant, removes one entry and releases its objects. */
  lemma ReleaseWellFormed(c: Core, key: Key, cap: nat)
    requires WellFormed(c, cap) && key in c.active.vals
    ensures WellFormed(Release(c, key), cap)
    ensures |Release(c, key).active.keys| == |c.active.keys| - 1
  {
    var r := Release(c, key);
    forall k | k in r.active.vals
      ensures r.active.vals[k].pipeline in r.engine.playing
    {
      assert k != key;
    }
  }

  /** Stopping the session at position `j` leaves the others, in order, with their sessions. */
  lemma ReleaseAt(c: Core, j: nat, cap: nat)
    requires WellFormed(c, cap) && j < |c.active.keys|
    ensures var r := Release(c, c.active.keys[j]);
      r.active.keys == c.active.keys[..j] + c.active.keys[j + 1..]
      && r.active.vals == c.active.vals - {c.active.keys[j]}
  {
    DeleteAt(c.active, j);
  }

  /** Admitting keeps the invariant as long as there is room or the key is already present. */
  lemma AdmitWellFormed(c: Core, clip: Clip, key: Key, now: int, pos: int, withTimer: bool, cap: nat)
    requires WellFormed(c, cap)
    requires key in c.active.vals || |c.active.keys| < cap
    ensures WellFormed(Admit(c, clip, key, now, pos, withTimer), cap)
  {
    var r := Admit(c, clip, key, now, pos, withTimer);
    var h := c.engine.next;
    var d := r.active;
    assert d.vals == c.active.vals[key := d.vals[key]];
    assert d.vals[key].pipeline == h && d.vals[key].pad == h + 1;
    forall k | k in d.vals
      ensures d.vals[k].key == k && d.vals[k].pipeline in r.engine.playing && Owned(d.vals[k], r.engine.next)
    {
      if k != key {
        assert d.vals[k] == c.active.vals[k];
      }
    }
    forall k1, k2 | k1 in d.vals && k2 in d.vals && k1 != k2
      ensures d.vals[k1].pad != d.vals[k2].pad && d.vals[k1].pipeline != d.vals[k2].pipeline
    {
      if k1 == key {
        assert Owned(c.active.vals[k2], h);
      } else if k2 == key {
        assert Owned(c.active.vals[k1], h);
      } else {
        assert d.vals[k1] == c.active.vals[k1] && d.vals[k2] == c.active.vals[k2];
      }
    }
  }

  /** `remove_video`: an absent key changes nothing; a present one is stopped. */
  function RemoveKey(c: Core, key: Key): Core {
    if key in c.active.vals then Release(c, key) else c
  }

  /** The capacity check at the top of `add_video`: at `cap` entries the oldest key is removed. */
  function EvictFirst(c: Core, cap: nat): Core {
    if |c.active.keys| >= cap && |c.active.keys| > 0 then RemoveKey(c, c.active.keys[0]) else c
  }

  /** The removal loop of `shutdown`, over a snapshot of the keys taken before it starts. */
  function RemoveAll(c: Core, ks: seq<Key>): Core {
    if ks == [] then c else RemoveKey(RemoveAll(c, ks[..|ks| - 1]), ks[|ks| - 1])
  }

  lemma RemoveKeyWellFormed(c: Core, key: Key, cap: nat)
    requires WellFormed(c, cap)
    ensures WellFormed(RemoveKey(c, key), cap)
  {
    if key in c.active.vals {
      ReleaseWellFormed(c, key, cap);
    }
  }

  /** Removing a present key deletes exactly that key; the others keep their order and sessions. */
  lemma RemoveExactly(c: Core, j: nat, cap: nat)
    requires WellFormed(c, cap) && j < |c.active.keys|
    ensures var r := RemoveKey(c, c.active.keys[j]);
      r.active.keys == c.active.keys[..j] + c.active.keys[j + 1..]
      && r.active.vals == c.active.vals - {c.active.keys[j]}
  {
    ReleaseAt(c, j, cap);
  }

  /**
   * At capacity the oldest key goes: the survivors are the remaining keys in
   * their old order, and afterwards there is room for one more.
   */
  lemma EvictOldest(c: Core, cap: nat)
    requires WellFormed(c, cap) && cap > 0
    ensures WellFormed(EvictFirst(c, cap), cap)
    ensures |EvictFirst(c, cap).active.keys| < cap
    ensures |c.active.keys| == cap ==>
      EvictFirst(c, cap).active.keys == c.active.keys[1..]
      && EvictFirst(c, cap).active.vals == c.active.vals - {c.active.keys[0]}
    ensures |c.active.keys| < cap ==> EvictFirst(c, cap) == c
  {
    if |c.active.keys| >= cap {
      ReleaseAt(c, 0, cap);
      ReleaseWellFormed(c, c.active.keys[0], cap);
    }
  }

  /**
   * A full registry: after the eviction and the admission of `key`, the
   * oldest key is gone (unless it is `key`), the survivors keep their
   * order, and `key` is last unless it survived the eviction.
   */
  lemma AdmitAfterEvict(c: Core, cap: nat, clip: Clip, key: Key, now: int, pos: int, withTimer: bool)
    requires WellFormed(c, cap) && cap > 0 && |c.active.keys| == cap
    ensures var ks := c.active.keys;
      var r := Admit(EvictFirst(c, cap), clip, key, now, pos, withTimer);
      && (ks[0] != key ==> ks[0] !in r.active.vals)
      && r.active.keys == ks[1..] + (if key in ks[1..] then [] else [key])
  {
    EvictOldest(c, cap);
    var c1 := EvictFirst(c, cap);
    if key in c.active.keys[1..] {
      assert key in c1.active.vals;
    } else {
      assert key !in c1.active.vals;
    }
  }

  /** After removing the first `j` snapshot keys one by one, exactly the rest remain. */
  lemma {:induction false} RemoveAllPrefix(c: Core, j: nat, cap: nat)
    requires WellFormed(c, cap) && j <= |c.active.keys|
    ensures WellFormed(RemoveAll(c, c.active.keys[..j]), cap)
    ensures RemoveAll(c, c.active.keys[..j]).active.keys == c.active.keys[j..]
  {
    var ks := c.active.keys;
    if j == 0 {
      assert ks[..0] == [];
    } else {
      RemoveAllPrefix(c, j - 1, cap);
      assert ks[..j][..j - 1] == ks[..j - 1];
      var r := RemoveAll(c, ks[..j - 1]);
      assert r.active.keys[0] == ks[j - 1];
      assert ks[j - 1] in r.active.vals;
      assert RemoveAll(c, ks[..j]) == Release(r, ks[j - 1]);
      ReleaseAt(r, 0, cap);
      ReleaseWellFormed(r, ks[j - 1], cap);
      assert r.active.keys[1..] == ks[j..];
    }
  }

  /**
   * Removing keys one by one only ever stops pipelines, leaves the surviving
   * sessions as they were, and has stopped the pipeline of every session it
   * removed.
   */
  lemma {:induction false} RemoveAllStops(c: Core, ks: seq<Key>)
    ensures var r := RemoveAll(c, ks);
      && r.engine.playing <= c.engine.playing
      && (forall k | k in r.active.vals :: k in c.active.vals && r.active.vals[k] == c.active.vals[k])
      && (forall k | k in c.active.vals && k !in r.active.vals :: c.active.vals[k].pipeline !in r.engine.playing)
  {
    if ks != [] {
      var q := RemoveAll(c, ks[..|ks| - 1]);
      RemoveAllStops(c, ks[..|ks| - 1]);
      var key := ks[|ks| - 1];
      assert RemoveAll(c, ks) == RemoveKey(q, key);
    }
  }

  /** `shutdown` leaves no session behind and stops every pipeline it knew about. */
  lemma RemoveAllEmpties(c: Core, cap: nat)
    requires WellFormed(c, cap)
    ensures var r := RemoveAll(c, c.active.keys);
      r.active.keys == [] && r.active.vals == map[] && WellFormed(r, cap)
    ensures var r := RemoveAll(c, c.active.keys);
      forall k | k in c.active.vals :: c.active.vals[k].pipeline !in r.engine.playing
  {
    RemoveAllPrefix(c, |c.active.keys|, cap);
    assert c.active.keys[..|c.active.keys|] == c.active.keys;
    var r := RemoveAll(c, c.active.keys);
    assert forall k | k in r.active.vals :: k in r.active.keys;
    RemoveAllStops(c, c.active.keys);
  }
}
