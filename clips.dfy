/**
 * The clip records the players load from their JSON configuration, the
 * start-up normalisation of those records, and the lookup tables built
 * from them: `midi_map` (four buckets with wildcard precedence) and
 * `keypress_map`.
 */
module Clips {
  import opened Wrappers
  import opened Notes

  /**
   * One configured clip after loading. Times are integer ticks. An absent
   * `end_sec` is -1, an absent `exclusive` or `restart_on_play` is false, an
   * absent `loop_duration_ms` is 0 and an absent `debug_keypress` is "".
   */
  datatype Clip = Clip(
    name: string,
    filePath: string,
    startSec: int,
    endSec: int,
    midiChannel: int,
    midiNote: int,
    exclusive: bool,
    restartOnPlay: bool,
    loopDurationMs: int,
    debugKeypress: string)

  /** `midi_note` as written in the configuration: a number or a note name. */
  datatype NoteSpec = NoteNumber(number: int) | NoteName(text: string)

  /** A clip record as read from the configuration, before normalisation. */
  datatype RawClip = RawClip(
    name: string,
    filePath: string,
    startSec: int,
    endSec: int,
    midiChannel: int,
    midiNote: NoteSpec,
    exclusive: bool,
    restartOnPlay: Option<bool>,
    loopDurationMs: int,
    debugKeypress: string)

  /** Why start-up aborts. */
  datatype LoadError = FileNotFound(path: string) | BadNote(error: NoteError)

  /** Configured channels are 1-based; 0 is left as it is and -1 means "any channel". */
  function ZeroBasedChannel(channel: int): int {
    if channel > 0 then channel - 1 else channel
  }

  lemma ChannelNumbering(channel: int)
    ensures ZeroBasedChannel(0) == 0 && ZeroBasedChannel(1) == 0
    ensures ZeroBasedChannel(-1) == -1
    ensures channel >= 1 ==> ZeroBasedChannel(channel) == channel - 1
    ensures channel >= 1 ==> ZeroBasedChannel(channel + 1) == ZeroBasedChannel(channel) + 1
  {
  }

  /**
   * The per-record step of the start-up loop: the file must exist, its path
   * becomes a URI, a note name is converted, the channel becomes 0-based and
   * `restart_on_play` defaults to false.
   */
  function NormaliseClip(c: RawClip, existing: set<string>, toUri: string -> string): Result<Clip, LoadError> {
    if c.filePath !in existing then Failure(FileNotFound(c.filePath))
    else
      var note := match c.midiNote
        case NoteNumber(n) => Success(n)
        case NoteName(text) => NoteToMidi(text);
      if note.Failure? then Failure(BadNote(note.error))
      else
        Success(Clip(c.name, toUri(c.filePath), c.startSec, c.endSec,
                     ZeroBasedChannel(c.midiChannel), note.value, c.exclusive,
                     c.restartOnPlay.GetOr(false), c.loopDurationMs, c.debugKeypress))
  }

  /**
   * The start-up loop over all records. The first record that fails aborts
   * start-up with that record's error; otherwise every record is normalised.
   */
  method NormaliseConfig(raw: seq<RawClip>, existing: set<string>, toUri: string -> string)
    returns (r: Result<seq<Clip>, LoadError>)
    ensures r.Success? <==> forall i | 0 <= i < |raw| :: NormaliseClip(raw[i], existing, toUri).Success?
    ensures r.Success? ==> |r.value| == |raw|
    ensures r.Success? ==> forall i | 0 <= i < |raw| :: r.value[i] == NormaliseClip(raw[i], existing, toUri).value
    ensures r.Failure? ==> exists i | 0 <= i < |raw| ::
      NormaliseClip(raw[i], existing, toUri) == Failure(r.error)
      && forall j | 0 <= j < i :: NormaliseClip(raw[j], existing, toUri).Success?
  {
    var clips: seq<Clip> := [];
    var i := 0;
    while i < |raw|
      invariant i <= |raw| && |clips| == i
      invariant forall j | 0 <= j < i :: NormaliseClip(raw[j], existing, toUri).Success?
      invariant forall j | 0 <= j < i :: clips[j] == NormaliseClip(raw[j], existing, toUri).value
    {
      var c := NormaliseClip(raw[i], existing, toUri);
      if c.Failure? {
        return Failure(c.error);
      }
      clips := clips + [c.value];
      i := i + 1;
    }
    return Success(clips);
  }

  // ----- midi_map -------------------------------------------------------

  /** The four buckets of `midi_map`. */
  datatype MidiMap = MidiMap(
    exact: map<(int, int), Clip>,
    anyChannel: map<int, Clip>,
    anyNote: map<int, Clip>,
    anyAny: Option<Clip>)

  const EmptyMidiMap: MidiMap := MidiMap(map[], map[], map[], None)

  /**
   * One iteration of the build loop. A channel or note of -1 is a wildcard;
   * a record with any other negative value is not entered.
   */
  function Register(m: MidiMap, clip: Clip): MidiMap {
    var ch, note := clip.midiChannel, clip.midiNote;
    if ch >= 0 && note >= 0 then m.(exact := m.exact[(ch, note) := clip])
    else if ch == -1 && note >= 0 then m.(anyChannel := m.anyChannel[note := clip])
    else if ch >= 0 && note == -1 then m.(anyNote := m.anyNote[ch := clip])
    else if ch == -1 && note == -1 then m.(anyAny := Some(clip))
    else m
  }

  function MidiMapOf(clips: seq<Clip>): MidiMap {
    if clips == [] then EmptyMidiMap
    else Register(MidiMapOf(clips[..|clips| - 1]), clips[|clips| - 1])
  }

  /** The loop that fills `midi_map`, one clip at a time in configuration order. */
  method BuildMidiMap(clips: seq<Clip>) returns (m: MidiMap)
    ensures m == MidiMapOf(clips)
  {
    m := EmptyMidiMap;
    var i := 0;
    while i < |clips|
      invariant i <= |clips|
      invariant m == MidiMapOf(clips[..i])
    {
      assert clips[..i + 1][..i] == clips[..i];
      m := Register(m, clips[i]);
      i := i + 1;
    }
    assert clips[..|clips|] == clips;
  }

  /** What a configured clip can answer to. */
  datatype Pattern = Exact(channel: int, note: int) | AnyChannel(note: int) | AnyNote(channel: int) | AnyAny

  predicate Matches(c: Clip, p: Pattern) {
    match p
    case Exact(ch, n) => c.midiChannel >= 0 && c.midiNote >= 0 && c.midiChannel == ch && c.midiNote == n
    case AnyChannel(n) => c.midiChannel == -1 && c.midiNote >= 0 && c.midiNote == n
    case AnyNote(ch) => c.midiChannel >= 0 && c.midiNote == -1 && c.midiChannel == ch
    case AnyAny => c.midiChannel == -1 && c.midiNote == -1
  }

  /** The last configured clip of the given pattern: later entries overwrite earlier ones. */
  function LastMatch(clips: seq<Clip>, p: Pattern): Option<Clip> {
    if clips == [] then None
    else if Matches(clips[|clips| - 1], p) then Some(clips[|clips| - 1])
    else LastMatch(clips[..|clips| - 1], p)
  }

  /** The entry of one bucket of the map. */
  function Bucket(m: MidiMap, p: Pattern): Option<Clip> {
    match p
    case Exact(ch, n) => if (ch, n) in m.exact then Some(m.exact[(ch, n)]) else None
    case AnyChannel(n) => if n in m.anyChannel then Some(m.anyChannel[n]) else None
    case AnyNote(ch) => if ch in m.anyNote then Some(m.anyNote[ch]) else None
    case AnyAny => m.anyAny
  }

  /** Each bucket of the built map holds the last clip configured for it. */
  lemma {:induction false} BucketIsLastMatch(clips: seq<Clip>, p: Pattern)
    ensures Bucket(MidiMapOf(clips), p) == LastMatch(clips, p)
  {
    if clips != [] {
      BucketIsLastMatch(clips[..|clips| - 1], p);
    }
  }

  /** `find_clip_for_midi`. */
  function FindClipForMidi(m: MidiMap, channel: int, note: int): Option<Clip> {
    if (channel, note) in m.exact then Some(m.exact[(channel, note)])
    else if note in m.anyChannel then Some(m.anyChannel[note])
    else if channel in m.anyNote then Some(m.anyNote[channel])
    else m.anyAny
  }

  /**
   * Lookup precedence over the configuration: an exact (channel, note) clip,
   * else an any-channel clip for the note, else an any-note clip for the
   * channel, else the any-any clip, else nothing; within each kind the last
   * configured clip wins.
   */
  lemma FindPrecedence(clips: seq<Clip>, channel: int, note: int)
    ensures FindClipForMidi(MidiMapOf(clips), channel, note) ==
      if LastMatch(clips, Exact(channel, note)).Some? then LastMatch(clips, Exact(channel, note))
      else if LastMatch(clips, AnyChannel(note)).Some? then LastMatch(clips, AnyChannel(note))
      else if LastMatch(clips, AnyNote(channel)).Some? then LastMatch(clips, AnyNote(channel))
      else LastMatch(clips, AnyAny)
  {
    BucketIsLastMatch(clips, Exact(channel, note));
    BucketIsLastMatch(clips, AnyChannel(note));
    BucketIsLastMatch(clips, AnyNote(channel));
    BucketIsLastMatch(clips, AnyAny);
  }

  /** Whatever is found answers to the channel and note asked for. */
  lemma FoundClipAnswers(clips: seq<Clip>, channel: int, note: int)
    requires FindClipForMidi(MidiMapOf(clips), channel, note).Some?
    ensures var c := FindClipForMidi(MidiMapOf(clips), channel, note).value;
      c in clips
      && (c.midiChannel == channel || c.midiChannel == -1)
      && (c.midiNote == note || c.midiNote == -1)
  {
    FindPrecedence(clips, channel, note);
    LastMatchFound(clips, Exact(channel, note));
    LastMatchFound(clips, AnyChannel(note));
    LastMatchFound(clips, AnyNote(channel));
    LastMatchFound(clips, AnyAny);
  }

  lemma {:induction false} LastMatchFound(clips: seq<Clip>, p: Pattern)
    ensures LastMatch(clips, p).Some? ==> LastMatch(clips, p).value in clips && Matches(LastMatch(clips, p).value, p)
  {
    if clips != [] && !Matches(clips[|clips| - 1], p) {
      LastMatchFound(clips[..|clips| - 1], p);
    }
  }

  // ----- keypress_map ---------------------------------------------------

  function KeypressMapOf(clips: seq<Clip>): map<string, Clip> {
    if clips == [] then map[]
    else
      var m := KeypressMapOf(clips[..|clips| - 1]);
      var c := clips[|clips| - 1];
      if c.debugKeypress != "" then m[c.debugKeypress := c] else m
  }

  /** The loop that fills `keypress_map`: a clip with a non-empty `debug_keypress` is entered under it. */
  method BuildKeypressMap(clips: seq<Clip>) returns (m: map<string, Clip>)
    ensures m == KeypressMapOf(clips)
  {
    m := map[];
    var i := 0;
    while i < |clips|
      invariant i <= |clips|
      invariant m == KeypressMapOf(clips[..i])
    {
      assert clips[..i + 1][..i] == clips[..i];
      var key := clips[i].debugKeypress;
      if key != "" {
        m := m[key := clips[i]];
      }
      i := i + 1;
    }
    assert clips[..|clips|] == clips;
  }

  /** A key is mapped iff some clip names it, and it maps to the last such clip. */
  lemma {:induction false} KeypressLookup(clips: seq<Clip>, key: string)
    requires key != ""
    ensures key in KeypressMapOf(clips) <==> exists i | 0 <= i < |clips| :: clips[i].debugKeypress == key
    ensures key in KeypressMapOf(clips) ==> exists i | 0 <= i < |clips| ::
      KeypressMapOf(clips)[key] == clips[i] && clips[i].debugKeypress == key
      && forall j | i < j < |clips| :: clips[j].debugKeypress != key
  {
    if clips != [] {
      var init := clips[..|clips| - 1];
      var last := |clips| - 1;
      KeypressLookup(init, key);
      var m, m0 := KeypressMapOf(clips), KeypressMapOf(init);
      if clips[last].debugKeypress == key {
        assert m[key] == clips[last];
      } else {
        assert key in m <==> key in m0;
        assert key in m ==> m[key] == m0[key];
        if i :| 0 <= i < |clips| && clips[i].debugKeypress == key {
          assert init[i] == clips[i];
        }
        if key in m0 {
          var i :| 0 <= i < |init| && m0[key] == init[i] && init[i].debugKeypress == key
            && forall j | i < j < |init| :: init[j].debugKeypress != key;
          assert clips[i] == init[i];
          assert forall j | i < j < |clips| :: clips[j].debugKeypress != key by {
            forall j | i < j < |clips|
              ensures clips[j].debugKeypress != key
            {
              if j < last {
                assert clips[j] == init[j];
              }
            }
          }
        }
      }
    }
  }

  // ----- position-polling loop timer ------------------------------------

  /** What one run of a `check_loop` timer callback decides. */
  datatype LoopCheck = LoopCheck(seekTo: Option<int>, keepPolling: bool)

  /**
   * `check_loop`: once the queried position has reached the end of the
   * segment, seek back to its start; a failed position query does nothing.
   * The callback always returns True, so the timer stays armed.
   */
  function CheckLoop(position: Option<int>, startPos: int, endPos: int): (r: LoopCheck)
    ensures r.keepPolling
    ensures r.seekTo.Some? <==> position.Some? && position.value >= endPos
    ensures r.seekTo.Some? ==> r.seekTo.value == startPos
  {
    if position.Some? && position.value >= endPos then LoopCheck(Some(startPos), true)
    else LoopCheck(None, true)
  }
}
