# Pareidolia in Dafny

Pareidolia is a MIDI-triggered video player for a Raspberry Pi. A JSON file
lists clips: a source file, a segment (`start_sec`, `end_sec`, with `-1`
meaning "to the end"), a MIDI channel and note (`-1` meaning "any"), an
optional debug key and the flags `exclusive`, `restart_on_play` and
`loop_duration_ms`. A note-on of positive velocity starts the mapped clip. In
the multi-video players a note-off (or a note-on of velocity 0) stops it; the
single-video player ignores every message but a note-on of positive velocity.
The multi-video players composite up to four (or six) clips on a 1920x1080
output and evict the oldest one when full. An offline tool cuts each clip's segment into its own file and writes a
second JSON file pointing at the cut files.

This project models that logic and proves properties of it:

- `Notes`: note names such as `C#4` become MIDI numbers (`tools.py`).
- `Clips`: start-up normalisation of each clip record, the four-bucket MIDI
  lookup table with its precedence, the debug-key table, and the `check_loop`
  poll.
- `Triggers`: how a MIDI message or a key press becomes start / stop /
  quit.
- `OrderedMaps`: the insertion-ordered dictionary `active_videos`, so that
  "the oldest entry" and "re-assigning a key keeps its place" mean what
  Python means.
- `Layout`: `calculate_layout` and `update_layout`, with a `Compositor` class
  whose pad geometry is updated in place.
- `Registry`: the session table shared by the multi-video players
  (`active_videos` plus the pipelines, pads and timers it owns) and its
  invariant.
- `PollingPlayer` (`pareidolia_no_ram.py`), `ResumePlayer`
  (`pareidolia_with_no_ram.py`), `RamPlayer` (`old_pareidolia_with_ram.py`)
  and `SinglePlayer` (`pareidolia.py`). Each is a pure transition function
  for every event handler and a `Player` class whose methods update fields in
  place and are proved equal to those functions.
- `RamFeeder`: the `need-data` callback that streams an in-memory file in
  4096-byte chunks.
- `ClipProcessing` (`process_clips.py`): output file naming, the ffmpeg
  argument list, the record rewriting, the processing loop with its
  counters, and orphan clean-up.

What lies outside the program is a parameter:

- The file system is a set of existing paths, or a directory listing.
- `Path.resolve().as_uri()` is a function `toUri`.
- MD5 is a function `md5` returning 32 hexadecimal characters.
- Whether an ffmpeg run or a GStreamer call succeeds is a boolean per call
  (`extracted`, `created`, `pauseFailed`).
- The clock is an integer timestamp `now` on each event.

## Model

| member | source | states |
|---|---|---|
| Decimal.DigitChar | tools.py:20-23 | the character produced for a digit is a digit of that value |
| Decimal.NatToString | process_clips.py:63 | `str` of a natural number is a non-empty run of digits |
| Decimal.IntToString | process_clips.py:63 | `str` of an integer is non-empty and starts with a digit or `-` |
| Decimal.ParseInt | tools.py:20-23 | `int(...)` only succeeds on non-empty text |
| Decimal.NatRoundTrip | tools.py:20-23 | reading back the digits of `str(n)` gives `n` |
| Decimal.IntRoundTrip | tools.py:20-23 | `int(str(i)) == i` for every integer, negative ones included |
| Notes.PitchNameShape | tools.py:2-15 | every pitch-class name is one letter or a letter plus `#`, with a value below 12 |
| Notes.NoteOfName | tools.py:18-25 | a pitch name followed by an octave gives `(octave + 2) * 12 + pitch class` |
| Notes.PitchAndOctaveRecovered | tools.py:25 | the pitch class is the note mod 12, and the octave + 2 is the note div 12 |
| Notes.OctaveUp | tools.py:25 | one octave higher is exactly 12 semitones higher |
| Notes.SharpIsOneAbove | tools.py:2-15 | for C, D, F, G and A, the sharp is one semitone above the natural |
| Notes.Injective | tools.py:2-25 | different (pitch, octave) pairs never give the same note |
| Notes.NamesInvert | tools.py:2-15 | the pitch-class table is a bijection onto 0..11 |
| Notes.RangeEnds | tools.py:25 | `C-2` is 0 and `G8` is 127, the ends of the MIDI range |
| Notes.SuccessShape | tools.py:18-25 | every accepted note is a known pitch name followed by a parsable octave, and its number is the formula |
| Notes.Rejections | tools.py:18-25 | flats fail in `int` (ValueError); `E#`, `B#` and lower case fail the table lookup (KeyError); text shorter than two characters fails the index (IndexError) |
| Notes.NoteToMidi | tools.py:18-25 | `note_to_midi`: the pitch-name table, octave parse and formula, with its three exceptions; specified by `Notes.NoteOfName`, `Notes.SuccessShape` and `Notes.Rejections` |
| Clips.ChannelNumbering | pareidolia_with_no_ram.py:52-53 | channels from 1 up become 0-based, consecutive channels stay consecutive, and 0 and -1 are kept |
| Clips.NormaliseConfig | pareidolia_with_no_ram.py:42-60 | start-up succeeds iff every record normalises; the result is each record's normalisation in order; on failure the error is that of the first failing record |
| Clips.BuildMidiMap | pareidolia_with_no_ram.py:63-80 | the table-building loop yields the table registered clip by clip in configuration order |
| Clips.BucketIsLastMatch | pareidolia_with_no_ram.py:63-80 | each bucket of the built table holds the last configured clip of that kind |
| Clips.FindPrecedence | pareidolia_with_no_ram.py:486-496 | lookup returns an exact clip, else any-channel, else any-note, else any-any, else none; within each kind the last configured clip wins |
| Clips.FoundClipAnswers | pareidolia.py:288-306 | a found clip is configured and matches the channel and the note, each exactly or as a wildcard |
| Clips.LastMatchFound | pareidolia_no_ram.py:55-75 | the last match of a kind is a configured clip of that kind |
| Clips.BuildKeypressMap | pareidolia_no_ram.py:55-75 | the key-table loop yields the table entered clip by clip |
| Clips.KeypressLookup | pareidolia.py:44-48 | a non-empty key is bound iff some clip names it, and then to the last clip naming it |
| Clips.CheckLoop | pareidolia_no_ram.py:282-291 | the poll always keeps running, and seeks exactly when a position is known and has reached the end, to the segment start |
| Clips.NormaliseClip | pareidolia_with_no_ram.py:42-60 | start-up normalisation of one record: a missing file fails, the path becomes a URI, a note name is converted, a channel above 0 becomes 0-based and `restart_on_play` defaults to false; specified by `Clips.NormaliseConfig` and `Clips.ChannelNumbering` |
| Clips.Register | pareidolia_with_no_ram.py:66-79 | one iteration of the table-building loop, entering the clip in the bucket its channel and note select; specified by `Clips.BuildMidiMap` and `Clips.BucketIsLastMatch` |
| Clips.FindClipForMidi | pareidolia_with_no_ram.py:486-496 | `find_clip_for_midi`; specified by `Clips.FindPrecedence` and `Clips.FoundClipAnswers` |
| Triggers.Dispatch | pareidolia_with_no_ram.py:507-526 | start iff note-on with positive velocity; stop iff note-off or a velocity-0 note-on; the key is `(channel, note)` as sent |
| Triggers.KeyboardAction | pareidolia_no_ram.py:498-531 | quit iff Ctrl+C or `q`; otherwise a bound key triggers its clip under `('keyboard', ord(key))`; anything else does nothing |
| Triggers.NoteOffSparesKeyboard | pareidolia_no_ram.py:437-443 | no MIDI stop names a keyboard session |
| OrderedMaps.Empty | pareidolia_with_no_ram.py:107 | the empty dictionary is well formed |
| OrderedMaps.Without | pareidolia_with_no_ram.py:420 | removing a key keeps exactly the other keys |
| OrderedMaps.WithoutAbsent | pareidolia_with_no_ram.py:420 | removing an absent key changes no order |
| OrderedMaps.WithoutAt | pareidolia_with_no_ram.py:420 | removing the key at position `j` closes the gap and keeps the rest in order |
| OrderedMaps.WithoutDistinct | pareidolia_with_no_ram.py:420 | removal keeps keys distinct |
| OrderedMaps.Put | pareidolia_with_no_ram.py:369 | assignment keeps the dictionary well formed; a new key goes last and an existing key keeps its place |
| OrderedMaps.Delete | pareidolia_with_no_ram.py:420 | `del` keeps the dictionary well formed, drops the key and shortens the order by one |
| OrderedMaps.WithoutKeepsValid | pareidolia_with_no_ram.py:420 | removal preserves ordered-dictionary well-formedness |
| OrderedMaps.DeleteAt | pareidolia_with_no_ram.py:420 | deleting the key at position `j` leaves the others in their order |
| OrderedMaps.DeleteFirst | pareidolia_with_no_ram.py:314-317 | deleting the oldest key leaves the rest of the order |
| OrderedMaps.DeleteAbsent | pareidolia_with_no_ram.py:420 | deleting an absent key changes nothing |
| Layout.CalculateLayout | pareidolia_with_no_ram.py:152-182 | one to four videos get that many rectangles, each inside the output and pairwise disjoint; other counts get none |
| Layout.LayoutCoversOutput | pareidolia_with_no_ram.py:152-182 | for one to four videos every output pixel belongs to some rectangle |
| Layout.PlaceAt | pareidolia_with_no_ram.py:184-204 | the first `k` pads get the first `k` rectangles and the other pads keep their geometry |
| Layout.LaidOutShown | pareidolia_with_no_ram.py:184-204 | after a re-layout every pad with a slot shows its slot's rectangle, and pads not in use are untouched |
| Layout.LaidOutBeyondTable | pareidolia_no_ram.py:149-179 | with more than four videos (the six-video player) no pad is moved |
| Layout.Compositor.constructor | pareidolia_with_no_ram.py:184-204 | a compositor starts with no pad geometry |
| Layout.Compositor.UpdateLayout | pareidolia_with_no_ram.py:184-204 | the pad geometry becomes the re-layout of the old geometry over the sessions' pads |
| Registry.Pads | pareidolia_with_no_ram.py:188-204 | the pads visited by `update_layout`, one per session, oldest first |
| Registry.InitialWellFormed | pareidolia_with_no_ram.py:107 | the empty session table is well formed |
| Registry.PadsDistinct | pareidolia_with_no_ram.py:188-204 | in a well-formed table no two sessions share a pad |
| Registry.ReleaseWellFormed | pareidolia_with_no_ram.py:385-424 | stopping a present session keeps the invariant and removes one entry |
| Registry.ReleaseAt | pareidolia_with_no_ram.py:420 | stopping the session at position `j` removes exactly that entry |
| Registry.AdmitWellFormed | pareidolia_with_no_ram.py:369-377 | storing a fresh session keeps the invariant when the key is present or there is room |
| Registry.RemoveKeyWellFormed | pareidolia_no_ram.py:311-343 | `remove_video` of any key keeps the invariant |
| Registry.RemoveExactly | pareidolia_no_ram.py:311-343 | `remove_video` of the key at position `j` removes exactly that entry |
| Registry.EvictOldest | pareidolia_no_ram.py:248-251 | eviction keeps the invariant and leaves room; a full table loses exactly its oldest entry; otherwise nothing changes |
| Registry.AdmitAfterEvict | pareidolia_no_ram.py:248-305 | when full, the new key ends up last and the oldest is gone unless it was the new key |
| Registry.RemoveAllPrefix | pareidolia_no_ram.py:484-496 | removing the first `j` snapshot keys leaves the remaining keys in order and keeps the invariant |
| Registry.RemoveAllEmpties | pareidolia_no_ram.py:484-496 | the shutdown loop over the key snapshot empties the table and stops the pipeline of every session it held |
| Registry.RemoveAllStops | pareidolia_no_ram.py:484-496 | removing keys one by one only stops pipelines, leaves the surviving sessions unchanged, and has stopped the pipeline of every session removed |
| Registry.Release | pareidolia_with_no_ram.py:404-420 | the common body of `remove_video` for a present key: disarm the timer, stop the pipeline, delete the key; specified by `Registry.ReleaseWellFormed` and `Registry.ReleaseAt` |
| Registry.Admit | pareidolia_with_no_ram.py:338-376 | a fresh pipeline, pad and optional timer stored under the key; specified by `Registry.AdmitWellFormed` and `Registry.AdmitAfterEvict` |
| Registry.EvictFirst | pareidolia_no_ram.py:248-251 | at capacity the oldest key is removed; specified by `Registry.EvictOldest` |
| Registry.RemoveAll | pareidolia_no_ram.py:484-496 | the shutdown loop over a snapshot of the keys; specified by `Registry.RemoveAllPrefix`, `Registry.RemoveAllStops` and `Registry.RemoveAllEmpties` |
| PollingPlayer.AddWellFormed | pareidolia_no_ram.py:238-309 | `add_video` keeps the invariant and at most six sessions |
| PollingPlayer.AddAtCapacityEvictsOldest | pareidolia_no_ram.py:248-251 | at six sessions the oldest is evicted and the new key goes last |
| PollingPlayer.ExclusiveRetriggerIgnored | pareidolia_no_ram.py:244-246 | re-triggering a playing exclusive key changes neither the sessions nor the layout |
| PollingPlayer.PollTimerOnlyWithEnd | pareidolia_no_ram.py:276-293 | a started clip gets an armed polling timer iff it has an end, and starts at position 0 |
| PollingPlayer.RemoveCancelsTimer | pareidolia_no_ram.py:311-343 | removal stops the pipeline, disarms the timer and drops the key |
| PollingPlayer.PollSeeksToZero | pareidolia_no_ram.py:282-291 | for a session whose poll timer is armed, the poll seeks to 0 (the cut file's start) exactly when the position has reached the clip's end, and keeps polling |
| PollingPlayer.NoteOffKeepsKeyboardSessions | pareidolia_no_ram.py:437-443 | a MIDI stop leaves a keyboard-started session untouched |
| PollingPlayer.StepWellFormed | pareidolia_no_ram.py:417-452 | one drained MIDI message keeps the invariant |
| PollingPlayer.StepsWellFormed | pareidolia_no_ram.py:417-452 | any sequence of MIDI messages keeps the invariant |
| PollingPlayer.Player.constructor | pareidolia_no_ram.py:104 | a player starts with no sessions and the given tables |
| PollingPlayer.Player.Relayout | pareidolia_no_ram.py:181-201 | the compositor shows the current sessions' layout |
| PollingPlayer.Player.ReleaseSession | pareidolia_no_ram.py:319-339 | the session's objects are released and its entry deleted |
| PollingPlayer.Player.RemoveVideo | pareidolia_no_ram.py:311-343 | state becomes `RemoveKey` of the old state; re-layout only when something was removed |
| PollingPlayer.Player.StartSession | pareidolia_no_ram.py:253-305 | a new session is stored at position 0, with a timer iff the clip has an end |
| PollingPlayer.Player.MakeRoom | pareidolia_no_ram.py:248-251 | the oldest session is removed when full, leaving room |
| PollingPlayer.Player.AddVideo | pareidolia_no_ram.py:238-309 | state and layout become those of the `add_video` transition |
| PollingPlayer.Player.ProcessMidiMessages | pareidolia_no_ram.py:417-452 | draining the queue applies the messages in order |
| PollingPlayer.Player.Shutdown | pareidolia_no_ram.py:484-496 | every session is removed in order, leaving the table empty |
| PollingPlayer.Player.HandleKey | pareidolia_no_ram.py:498-531 | quit shuts every session down; a bound key adds its clip; other keys change nothing |
| PollingPlayer.Add | pareidolia_no_ram.py:238-309 | `add_video` on the session table; specified by `PollingPlayer.AddWellFormed`, `PollingPlayer.AddAtCapacityEvictsOldest`, `PollingPlayer.ExclusiveRetriggerIgnored` and `PollingPlayer.PollTimerOnlyWithEnd` |
| PollingPlayer.Step | pareidolia_no_ram.py:417-452 | one drained MIDI message; specified by `PollingPlayer.StepWellFormed` and `PollingPlayer.NoteOffKeepsKeyboardSessions` |
| PollingPlayer.Poll | pareidolia_no_ram.py:282-291 | the `check_loop` poll of a session whose timer is armed, against that session's clip end; specified by `PollingPlayer.PollSeeksToZero` |
| PollingPlayer.StartedClipLoops | pareidolia_no_ram.py:276-293 | a clip with an end, once started, has an armed poll timer whose poll seeks to 0 exactly when the position reaches the clip's end |
| PollingPlayer.Player.PollTick | pareidolia_no_ram.py:282-291 | the armed timer's poll for a present session: seeks to 0 exactly when the position has reached the end, and always keeps polling |
| RamPlayer.AddWellFormed | old_pareidolia_with_ram.py:294-345 | `add_video` keeps the invariant and at most four sessions |
| RamPlayer.AddAlwaysInserts | old_pareidolia_with_ram.py:310-345 | every non-ignored trigger stores the clip and arms no timer |
| RamPlayer.AddAtCapacityEvictsOldest | old_pareidolia_with_ram.py:304-307 | at four sessions the oldest is evicted and the new key goes last |
| RamPlayer.ExclusiveRetriggerIgnored | old_pareidolia_with_ram.py:300-302 | re-triggering a playing exclusive key changes nothing |
| RamPlayer.NoteOffRemovesIfPresent | old_pareidolia_with_ram.py:458-475 | a stop removes exactly its key, and an absent key changes nothing |
| RamPlayer.StepWellFormed | old_pareidolia_with_ram.py:449-482 | one MIDI message keeps the invariant |
| RamPlayer.StepsWellFormed | old_pareidolia_with_ram.py:449-482 | any sequence of MIDI messages keeps the invariant |
| RamPlayer.Player.constructor | old_pareidolia_with_ram.py:122 | a player starts with no sessions and the given tables |
| RamPlayer.Player.Relayout | old_pareidolia_with_ram.py:199-219 | the compositor shows the current sessions' layout |
| RamPlayer.Player.ReleaseSession | old_pareidolia_with_ram.py:354-373 | the session's objects are released and its entry deleted |
| RamPlayer.Player.RemoveVideo | old_pareidolia_with_ram.py:347-377 | state becomes `RemoveKey` of the old state; re-layout only when something was removed |
| RamPlayer.Player.MakeRoom | old_pareidolia_with_ram.py:304-307 | the oldest session is removed when full, leaving room |
| RamPlayer.Player.StartSession | old_pareidolia_with_ram.py:310-341 | a new session is stored without a timer |
| RamPlayer.Player.AddVideo | old_pareidolia_with_ram.py:294-345 | state and layout become those of the `add_video` transition |
| RamPlayer.Player.ProcessMidiMessages | old_pareidolia_with_ram.py:449-482 | draining the queue applies the messages in order |
| RamPlayer.Player.Shutdown | old_pareidolia_with_ram.py:514-526 | every session is removed, leaving the table empty |
| RamPlayer.Player.HandleKey | old_pareidolia_with_ram.py:528-555 | quit shuts every session down; a bound key adds its clip; other keys change nothing |
| RamPlayer.Add | old_pareidolia_with_ram.py:294-345 | `add_video` on the session table; specified by `RamPlayer.AddWellFormed`, `RamPlayer.AddAlwaysInserts`, `RamPlayer.AddAtCapacityEvictsOldest` and `RamPlayer.ExclusiveRetriggerIgnored` |
| RamPlayer.Step | old_pareidolia_with_ram.py:449-482 | one MIDI message; specified by `RamPlayer.StepWellFormed` and `RamPlayer.NoteOffRemovesIfPresent` |
| RamFeeder.Chunk | old_pareidolia_with_ram.py:275 | a chunk is the next at most 4096 bytes from the cursor |
| RamFeeder.FeedOnce | old_pareidolia_with_ram.py:272-288 | before the end, push the next chunk and advance; at the end, restart with the first chunk if the clip loops, else emit end-of-stream and reset |
| RamFeeder.FeedReachesEnd | old_pareidolia_with_ram.py:272-288 | from any cursor, ceil(remaining / 4096) callbacks bring the cursor exactly to the end |
| RamFeeder.Feeder.constructor | old_pareidolia_with_ram.py:268-270 | the closure starts at offset 0 having emitted nothing |
| RamFeeder.Feeder.PushChunk | old_pareidolia_with_ram.py:275-278 | one chunk is emitted and the cursor advances by its length; the chunks since the last reset concatenate to the data before the cursor |
| RamFeeder.Feeder.NeedData | old_pareidolia_with_ram.py:272-288 | one callback emits and moves the cursor as `FeedOnce` says |
| ResumePlayer.EvictWellFormed | pareidolia_with_no_ram.py:314-317 | eviction is the registry's oldest-first eviction, keeps the invariant and leaves room |
| ResumePlayer.AddWellFormed | pareidolia_with_no_ram.py:304-383 | `add_video` keeps the invariant and at most four sessions |
| ResumePlayer.RemoveWellFormed | pareidolia_with_no_ram.py:385-424 | `remove_video` changes the table like the registry's removal and keeps the invariant |
| ResumePlayer.AddAtCapacityEvictsOldest | pareidolia_with_no_ram.py:314-317 | at four sessions the oldest is evicted and the new key goes last |
| ResumePlayer.FailedStartStillEvicts | pareidolia_with_no_ram.py:338-341 | when the playbin cannot be made, the eviction still happened and nothing is added |
| ResumePlayer.ExclusiveRetriggerIgnored | pareidolia_with_no_ram.py:310-312 | re-triggering a playing exclusive key changes nothing |
| ResumePlayer.RemoveAbsentIgnored | pareidolia_with_no_ram.py:389-391 | removing an absent key changes nothing |
| ResumePlayer.RemoveExactlyThatKey | pareidolia_with_no_ram.py:385-424 | removal drops exactly that key, keeps the tracked files, and touches no other file's position |
| ResumePlayer.RetriggerOverwritesInPlace | pareidolia_with_no_ram.py:314-377 | re-triggering a present non-exclusive key gives it the new clip and no session owns the old pipeline. Below capacity the key order is unchanged and the old pipeline keeps playing. At capacity the oldest key is evicted first: if that is another key, the re-triggered key keeps its place and its old pipeline keeps playing; if it is the re-triggered key, that key goes last and its old pipeline is stopped |
| ResumePlayer.RetriggerReplacesSession | pareidolia_with_no_ram.py:314-377 | after a re-trigger the key holds the new clip and no session owns the old pipeline |
| ResumePlayer.RetriggerBelowCapacity | pareidolia_with_no_ram.py:369-377 | below capacity the key order is unchanged and nothing stops |
| ResumePlayer.RetriggerAtCapacity | pareidolia_with_no_ram.py:314-377 | at capacity the evicted oldest key decides whether the re-triggered key keeps its place or goes last, and whether its old pipeline stops |
| ResumePlayer.EvictedSessionsUnchanged | pareidolia_with_no_ram.py:314-317 | eviction leaves the sessions of the surviving keys unchanged |
| ResumePlayer.RestartMovesToBack | pareidolia_with_no_ram.py:296-302 | a restart moves the key to the back of the order |
| ResumePlayer.RestartWellFormed | pareidolia_with_no_ram.py:296-302 | a restart keeps the invariant |
| ResumePlayer.LoopTimerRearms | pareidolia_with_no_ram.py:354-366 | when a loop timer fires, its id is disarmed, and the restarted session gets a fresh armed timer |
| ResumePlayer.RemoveAccumulates | pareidolia_with_no_ram.py:398-402 | removal adds the time since `start_time` to the file's position |
| ResumePlayer.AddResumes | pareidolia_with_no_ram.py:319-335 | without `restart_on_play` a clip starts at its file's recorded position, and `start_time` is now |
| ResumePlayer.AddRestartsAtZero | pareidolia_with_no_ram.py:319-335 | with `restart_on_play` the position is reset to 0 and playback starts there |
| ResumePlayer.ResumeWhereLeftOff | pareidolia_with_no_ram.py:304-424 | start at t0, stop at t1, start again: the second start is the first start plus t1 - t0 |
| ResumePlayer.EndOfStreamResumesAtElapsed | pareidolia_with_no_ram.py:281-286 | (as written) after end-of-stream the restart begins at the elapsed time, not at 0 |
| ResumePlayer.EndOfStreamExample | pareidolia_with_no_ram.py:281-286 | (as written) a clip started at time 0 restarts at position 10 at time 10 |
| ResumePlayer.RestartFromStartBeginsAtZero | pareidolia_with_no_ram.py:281-302 | (corrected) the restart begins at 0 and reorders the table like the written one |
| ResumePlayer.StepWellFormed | pareidolia_with_no_ram.py:498-533 | one MIDI message keeps the invariant |
| ResumePlayer.StepsWellFormed | pareidolia_with_no_ram.py:498-533 | any sequence of MIDI messages keeps the invariant |
| ResumePlayer.RemoveEachCore | pareidolia_with_no_ram.py:557-569 | the shutdown loop changes the table like the registry's removal loop |
| ResumePlayer.ShutdownEmpties | pareidolia_with_no_ram.py:557-569 | shutdown empties the table, keeps the invariant, stops the pipeline of every session, and the tracker keeps exactly the files it knew |
| ResumePlayer.RemoveEachKeepsFiles | pareidolia_with_no_ram.py:385-424 | removing sessions never adds or drops a file in the position tracker |
| ResumePlayer.Player.constructor | pareidolia_with_no_ram.py:33 | a player starts with no sessions and no tracked positions |
| ResumePlayer.Player.Relayout | pareidolia_with_no_ram.py:184-204 | the compositor shows the current sessions' layout |
| ResumePlayer.Player.RecordElapsed | pareidolia_with_no_ram.py:398-402 | the file's position grows by the time since its start |
| ResumePlayer.Player.ReleaseSession | pareidolia_with_no_ram.py:404-420 | the session's objects are released and its entry deleted |
| ResumePlayer.Player.RemoveVideo | pareidolia_with_no_ram.py:385-424 | state becomes the `remove_video` transition; re-layout only when something was removed |
| ResumePlayer.Player.MakeRoom | pareidolia_with_no_ram.py:314-317 | the oldest session is removed when full, leaving room |
| ResumePlayer.Player.StartSession | pareidolia_with_no_ram.py:369-377 | a new session is stored, with a timer when asked |
| ResumePlayer.Player.ChooseStart | pareidolia_with_no_ram.py:319-335 | returns the start position and prepares the tracker |
| ResumePlayer.Player.AddVideo | pareidolia_with_no_ram.py:304-383 | state and layout become those of the `add_video` transition |
| ResumePlayer.Player.Launch | pareidolia_with_no_ram.py:354-383 | the session is stored, `start_time` is stamped and the layout redone |
| ResumePlayer.Player.OnEndOfStream | pareidolia_with_no_ram.py:270-286 | resets the file's position for a present key, and reports whether a restart is scheduled |
| ResumePlayer.Player.RestartClipAtEnd | pareidolia_with_no_ram.py:296-302 | (as written) state becomes remove-then-add |
| ResumePlayer.Player.RestartClipFromStart | pareidolia_with_no_ram.py:281-302 | (corrected) remove, forget the position, then add |
| ResumePlayer.Player.LoopTimerFired | pareidolia_with_no_ram.py:358-366 | the restart, with the fired timer disarmed |
| ResumePlayer.Player.ProcessMidiMessages | pareidolia_with_no_ram.py:498-533 | draining the queue applies the messages in order |
| ResumePlayer.Player.Shutdown | pareidolia_with_no_ram.py:557-569 | every session is removed, leaving the table empty |
| ResumePlayer.Remove | pareidolia_with_no_ram.py:385-424 | `remove_video`; specified by `ResumePlayer.RemoveWellFormed`, `ResumePlayer.RemoveAbsentIgnored`, `ResumePlayer.RemoveExactlyThatKey` and `ResumePlayer.RemoveAccumulates` |
| ResumePlayer.Add | pareidolia_with_no_ram.py:304-383 | `add_video`; specified by `ResumePlayer.AddWellFormed`, `ResumePlayer.AddAtCapacityEvictsOldest`, `ResumePlayer.FailedStartStillEvicts`, `ResumePlayer.AddResumes`, `ResumePlayer.AddRestartsAtZero` and `ResumePlayer.RetriggerOverwritesInPlace` |
| ResumePlayer.EndOfStream | pareidolia_with_no_ram.py:281-286 | the end-of-stream branch resets the file's position to 0 for a present key; specified by `ResumePlayer.EndOfStreamResumesAtElapsed` |
| ResumePlayer.RestartAtEnd | pareidolia_with_no_ram.py:296-302 | `restart_clip_at_end`: remove then add again; specified by `ResumePlayer.RestartMovesToBack` and `ResumePlayer.RestartWellFormed` |
| ResumePlayer.AfterLoopTimer | pareidolia_with_no_ram.py:358-363 | a loop timer firing: the restart, after which the fired timer is gone; specified by `ResumePlayer.LoopTimerRearms` |
| ResumePlayer.RestartFromStart | pareidolia_with_no_ram.py:281-302 | (corrected) remove, reset the position, add; specified by `ResumePlayer.RestartFromStartBeginsAtZero` |
| SinglePlayer.ExclusiveSameClipIgnored | pareidolia.py:113-115 | showing the current exclusive clip again is a no-op |
| SinglePlayer.ShowReplacesTimer | pareidolia.py:117-148 | `show_clip` makes the clip current, switches the URI, removes the old timer, and leaves at most one armed |
| SinglePlayer.TimerOnlyWithEnd | pareidolia.py:150-203 | a loop timer exists after `show_clip` iff pausing worked and the clip has an end, over its segment |
| SinglePlayer.OneTimerKept | pareidolia.py:308-330 | any sequence of MIDI messages keeps exactly one recorded timer armed |
| SinglePlayer.EndOfStreamLoopsPlayToEnd | pareidolia.py:221-226 | at end-of-stream a play-to-end clip is shown again, without a timer; other clips are left alone |
| SinglePlayer.ExclusivePlayToEndStops | pareidolia.py:221-226 | re-showing an exclusive clip at end-of-stream is swallowed by the exclusivity check |
| SinglePlayer.OnlyNoteOnShows | pareidolia.py:318 | only a note-on with positive velocity changes anything |
| SinglePlayer.NoteOnShowsFoundClip | pareidolia.py:321-326 | an unmapped note changes nothing, and a found non-exclusive clip becomes current |
| SinglePlayer.Player.constructor | pareidolia.py:90-100 | the playbin starts on the first clip's file with nothing current and no timer |
| SinglePlayer.Player.ShowClip | pareidolia.py:102-209 | the screen becomes the `show_clip` transition of the old screen |
| SinglePlayer.Player.TimerTick | pareidolia.py:187-203 | the armed `check_loop` seeks to the segment start once the end is reached, and keeps the timer |
| SinglePlayer.Player.OnEndOfStream | pareidolia.py:221-226 | re-shows exactly a current play-to-end clip |
| SinglePlayer.Player.ProcessMidiMessages | pareidolia.py:308-330 | draining the queue applies the messages in order |
| SinglePlayer.Player.HandleKey | pareidolia.py:376-411 | quit iff Ctrl+C or `q`; a bound key shows its clip; other keys change nothing |
| SinglePlayer.Show | pareidolia.py:102-209 | `show_clip`; specified by `SinglePlayer.ExclusiveSameClipIgnored`, `SinglePlayer.ShowReplacesTimer` and `SinglePlayer.TimerOnlyWithEnd` |
| SinglePlayer.EndOfStream | pareidolia.py:221-226 | the end-of-stream branch; specified by `SinglePlayer.EndOfStreamLoopsPlayToEnd` and `SinglePlayer.ExclusivePlayToEndStops` |
| SinglePlayer.Step | pareidolia.py:308-330 | one drained MIDI message; specified by `SinglePlayer.OnlyNoteOnShows` and `SinglePlayer.NoteOnShowsFoundClip` |
| ClipProcessing.Replace | process_clips.py:39 | each occurrence of the character is replaced and nothing else changes |
| ClipProcessing.NamePart | process_clips.py:39 | spaces and slashes become `_`, everything else is kept, so no space or slash is left |
| ClipProcessing.GenerateClipFilename | process_clips.py:36-45 | the name part, `_`, the first eight characters of the md5 digest of the hash input, then `.mp4`; never contains `/` |
| ClipProcessing.FilenameShape | process_clips.py:45 | the layout of the file name, character by character |
| ClipProcessing.FilenameDependsOnTimingAndSource | process_clips.py:42-43 | records agreeing on name, source and segment get the same output file |
| ClipProcessing.SameNamePartSameFile | process_clips.py:36-45 | clips with the same name part and the same hash input map to the same file |
| ClipProcessing.SpaceAndUnderscoreCollide | process_clips.py:39 | `a b` and `a_b` with the same hash input map to the same file |
| ClipProcessing.IntTextIsNotAFlag | process_clips.py:63 | a number's text is never `-t` |
| ClipProcessing.ExtractArgs | process_clips.py:59-82 | ffmpeg gets `-i` before `-ss`, `-t` with the duration exactly when `end_sec >= 0`, and the output last |
| ClipProcessing.RewriteFields | process_clips.py:155-169 | the new record points at the output, starts at 0, ends at the duration or -1, records the originals, and keeps other keys |
| ClipProcessing.RewriteTwiceKeepsTiming | process_clips.py:155-169 | rewriting a rewritten record keeps its timing |
| ClipProcessing.MissingSourceFails | process_clips.py:134-138 | a missing source counts one failure and nothing else |
| ClipProcessing.ExistingOutputSkipped | process_clips.py:144-147 | (corrected) an existing output, unforced, counts a success and collects nothing |
| ClipProcessing.ForcedReextraction | process_clips.py:144-174 | with `--force` an existing output is extracted again; a failed run counts a failure |
| ClipProcessing.PrefixInputs | process_clips.py:130 | a prefix of the inputs is still readable input |
| ClipProcessing.EveryClipCounted | process_clips.py:130-174 | every clip is counted once as success or failure; collected records only grow and never outnumber the successes |
| ClipProcessing.VisitCollectsOwnClip | process_clips.py:153-172 | one clip collects at most its own rewritten record, and only when ffmpeg succeeded |
| ClipProcessing.FreshlyExtractedExtends | process_clips.py:130-174 | a record extracted from a prefix of the clips is extracted from the whole list |
| ClipProcessing.CollectedAreExtracted | process_clips.py:130-174 | every collected record is the rewrite of an input clip whose ffmpeg run succeeded |
| ClipProcessing.ProcessOne | process_clips.py:130-174 | one iteration of the loop updates the files, records and counters as `Visit` says |
| ClipProcessing.ProcessClips | process_clips.py:103-190 | a missing input file gives False; otherwise the counts are the loop's, the output JSON is written iff something was collected, and the result is success > 0 |
| ClipProcessing.ExistingOutputRaises | process_clips.py:144 | (as written) an existing output raises `NameError`, where the intended skip counts a success |
| ClipProcessing.AsWrittenAgreesWhenItSucceeds | process_clips.py:144 | when the written loop does not raise, it agrees with the corrected loop |
| ClipProcessing.LastSlash | process_clips.py:210-212 | the index found is in bounds, holds `/` and no `/` follows it; there is none exactly when the path has no `/` |
| ClipProcessing.LastSlashBeforeName | process_clips.py:142 | in `dir/name` with no slash in the name, the last slash is the separator |
| ClipProcessing.OutputPathSplits | process_clips.py:142 | an output path's parent is `processed_clips` and its name is the generated file name |
| ClipProcessing.PathsOf | process_clips.py:209-210 | the `file_path` of each record, in order |
| ClipProcessing.ReferencedMembers | process_clips.py:203-214 | a name is referenced iff some record's path has that parent and that name |
| ClipProcessing.Orphans | process_clips.py:219-228 | an entry is removed iff it is an `.mp4` that no record references |
| ClipProcessing.CollectReferenced | process_clips.py:203-214 | the loop collects exactly the referenced names |
| ClipProcessing.SelectOrphans | process_clips.py:222-228 | the removal loop selects exactly the orphans, in listing order |
| ClipProcessing.CleanupOrphaned | process_clips.py:192-233 | without the directory nothing happens; otherwise the orphans are removed and the referenced names kept |
| ClipProcessing.CollectedNeverOrphaned | process_clips.py:155-228 | a file whose rewritten record was saved is never removed by the clean-up |
| ClipProcessing.HashInput | process_clips.py:42-43 | the hashed text: source path, start and end (default -1) joined by `_`; specified by `ClipProcessing.FilenameDependsOnTimingAndSource` and `ClipProcessing.SameNamePartSameFile` |
| ClipProcessing.Rewrite | process_clips.py:155-169 | the record written for an extracted clip; specified by `ClipProcessing.RewriteFields` and `ClipProcessing.RewriteTwiceKeepsTiming` |
| ClipProcessing.Visit | process_clips.py:130-174 | (corrected) one iteration of the extraction loop; specified by `ClipProcessing.MissingSourceFails`, `ClipProcessing.ExistingOutputSkipped`, `ClipProcessing.ForcedReextraction` and `ClipProcessing.VisitCollectsOwnClip` |
| ClipProcessing.Visits | process_clips.py:130-174 | (corrected) the extraction loop; specified by `ClipProcessing.EveryClipCounted`, `ClipProcessing.CollectedAreExtracted` and `ClipProcessing.ProcessClips` |
| ClipProcessing.VisitAsWritten | process_clips.py:144 | (as written) one iteration, raising `NameError` on an existing output; specified by `ClipProcessing.ExistingOutputRaises` |
| ClipProcessing.VisitsAsWritten | process_clips.py:130-174 | (as written) the extraction loop, stopping at the first raise; specified by `ClipProcessing.ExistingOutputRaises` and `ClipProcessing.AsWrittenAgreesWhenItSucceeds` |
| ClipProcessing.Parent | process_clips.py:211 | `Path(p).parent`; specified by `ClipProcessing.OutputPathSplits` |
| ClipProcessing.BaseName | process_clips.py:212 | `Path(p).name`; specified by `ClipProcessing.OutputPathSplits` |
| ClipProcessing.Referenced | process_clips.py:203-214 | the names of the saved records' files in the processed-clips directory; specified by `ClipProcessing.ReferencedMembers` and `ClipProcessing.CollectReferenced` |

## Left out

- GStreamer is not modelled. Pipelines, pads, timers and buses are abstract handles. The `intervideosrc`/`intervideosink` channel names built from `id(clip)` are left out, along with states other than playing/stopped, bus error and warning messages, and the `is_desktop_environment` sink choice.
- Threads are not modelled: the MIDI reader thread, the queue, the GLib main loop and the `running` flag. The model takes the drained messages as a sequence, which is the order in which the main loop sees them.
- Terminal input (`getch`, termios) and signal handlers are not modelled. The key read is a parameter.
- Time is an integer tick, not a float of seconds. `time.time()`, the nanosecond conversions of seek and query, and fractional `start_sec` values are not modelled.
- Path handling is simplified.
  - `Path(...).exists()` is membership in a set of strings.
  - `resolve().as_uri()` is a parameter `toUri`.
  - Path normalisation is not modelled: `./x`, double slashes, and the `.` that pathlib gives a bare name.
  - `glob("*.mp4")` is a suffix test on the listing. It does not distinguish files from directories and ignores pathlib's dotfile handling.
- `md5` is a parameter that returns 32 hexadecimal characters, so MD5 itself is not modelled. Running ffmpeg is one boolean per clip, and a failed run is assumed to leave no output file.
- `argparse`, `main` and `cleanup_all` in `process_clips.py` are not modelled. Neither are the JSON encoding and key order of the written file.
- A missing `clips` key is an empty list. A JSON syntax error, and the exception it raises, are not modelled.
- `ParseInt` accepts an optional `-` or `+` and ASCII digits only. Python's `int()` also accepts surrounding whitespace, `_` separators and non-ASCII Unicode decimal digits, and those are not modelled.
- `NormaliseClip` uses a tagged note value (number or name) in place of Python's `isinstance` test. Records whose fields have other types, which raise `KeyError` or `TypeError` in the source, are not modelled.
- `ClipProcessing.Visit`, `GenerateClipFilename` and `Rewrite` require `Readable` records. A record missing `name`, `file_path` or `start_sec` makes the source raise `KeyError`, and that crash is not modelled.
- ClipProcessing.CleanupOrphaned: requires every saved record to carry a text `file_path`. A saved record without one makes `clip['file_path']` (process_clips.py:210) raise `KeyError`, a non-text one makes `Path(...)` raise `TypeError`, and those crashes are not modelled.
- `pareidolia.py` does not normalise notes or channels at start-up. Its table is built by `Clips.BuildMidiMap` from clips passed to `SinglePlayer.Player` as they are. A note name there would make the source's `>=` comparison raise `TypeError`, and that is not modelled.
- `pareidolia.py`'s `shutdown` only stops the pipeline and the main loop, so `SinglePlayer.Player.HandleKey` reports quit and leaves the screen state alone.
- `RamFeeder` and `RamPlayer` are not linked. The player does not model the RAM file cache (`file_data` loading), and the feeder is stated for one appsrc on its own.
- The flask apps, `clip_download_helper.py`, `midi_reader_test.py` and `test_video.py` are not part of this model.
- PollingPlayer.Player.MakeRoom, RamPlayer.Player.MakeRoom and ResumePlayer.Player.MakeRoom: the geometry is stated after the eviction only. The intermediate layout that `remove_video` applies is the same `LaidOut` step.
- ResumePlayer.Player.Shutdown, PollingPlayer.Player.Shutdown and RamPlayer.Player.Shutdown do not state the final geometry, and ResumePlayer uses one `now` for every removal.
- ClipProcessing.RewriteTwiceKeepsTiming: requires `end_sec < 0` or `end_sec >= start_sec`. With an end before the start the first rewrite gives a negative duration, and the second turns it into -1.
- ResumePlayer.Player.LoopTimerFired: the `restart_clip` callback of a loop timer is remove-then-add as written. It resumes at the elapsed position, which is the resume design for a retrigger, so it is kept as written.

## Findings

| source | as written | input that shows it | evidently intended | confidence | as-written member | corrected member |
|---|---|---|---|---|---|---|
| pareidolia_with_no_ram.py:281-302 | On end-of-stream the position is reset to 0, but the scheduled restart calls `remove_video` first. That adds the time since `start_time` back onto the position, so `add_video` resumes at the elapsed time and not at 0. | A clip without `restart_on_play`, started at time 0 from position 0, reaches its end at time 10. The restart asks for position 10, which is the end of the clip again. | The clip loops from the beginning. | not executed | ResumePlayer.EndOfStreamResumesAtElapsed, ResumePlayer.EndOfStreamExample, ResumePlayer.Player.RestartClipAtEnd | ResumePlayer.RestartFromStartBeginsAtZero, ResumePlayer.Player.RestartClipFromStart |
| process_clips.py:144 | The check for an existing output reads `args.force`, but `args` is a local of `main` (process_clips.py:286). When the source exists and the output already exists, the `and` evaluates `args` and raises `NameError`. | A second run of the tool after a successful first run. | Skip the clip and count a success, unless `--force` is given. | not executed | ClipProcessing.VisitsAsWritten, ClipProcessing.ExistingOutputRaises | ClipProcessing.ProcessClips, ClipProcessing.ExistingOutputSkipped, ClipProcessing.ForcedReextraction |
