/**
 * The offline clip processor: it names each extracted segment after the
 * clip and a digest of its source and timing, builds the ffmpeg command
 * line, rewrites the clip records for the extracted files, and selects the
 * processed files no record refers to any more.
 *
 * The MD5 digest is a parameter (`md5`), the filesystem is the set of paths
 * that exist, and whether ffmpeg succeeds on a clip is one boolean per clip.
 */
module ClipProcessing {
  import opened Wrappers
  import opened Decimal

  /** A JSON value in a clip record; values the processor never looks into stay opaque. */
  datatype Value = Text(s: string) | Number(n: int) | Opaque(repr: string)

  /** A clip record as loaded from the configuration file. */
  type Record = map<string, Value>

  const ProcessedDir: string := "processed_clips"
  const Scale: string := "480:270"
  const VideoBitrate: string := "500k"
  const Framerate: string := "24"
  const Preset: string := "ultrafast"

  const HexDigits: string := "0123456789abcdef"

  /** A `hexdigest()`: 32 lower-case hexadecimal characters. */
  type Digest = s: string | |s| == 32 && forall i | 0 <= i < |s| :: s[i] in HexDigits
    witness "00000000000000000000000000000000"

  /** A record whose `file_path` is text, as `cleanup_orphaned` reads it. */
  predicate HasPath(r: Record) {
    "file_path" in r && r["file_path"].Text?
  }

  /**
   * A record the processing loop reads without raising: text `name` and
   * `file_path`, a number `start_sec`, and `end_sec` a number when present.
   */
  predicate Readable(r: Record) {
    && "name" in r && r["name"].Text?
    && HasPath(r)
    && "start_sec" in r && r["start_sec"].Number?
    && ("end_sec" in r ==> r["end_sec"].Number?)
  }

  function Name(r: Record): string
    requires Readable(r)
  {
    r["name"].s
  }

  function PathOf(r: Record): string
    requires HasPath(r)
  {
    r["file_path"].s
  }

  function StartSec(r: Record): int
    requires Readable(r)
  {
    r["start_sec"].n
  }

  /** `clip.get('end_sec', -1)`. */
  function EndSec(r: Record): int
    requires Readable(r)
  {
    if "end_sec" in r then r["end_sec"].n else -1
  }

  // ----- file naming ---------------------------------------------------

  /** `s.replace(from, to)` for single characters. */
  function Replace(s: string, from: char, to: char): (r: string)
    ensures |r| == |s|
    ensures forall i :: 0 <= i < |s| ==> r[i] == if s[i] == from then to else s[i]
    decreases |s|
  {
    if s == [] then [] else [if s[0] == from then to else s[0]] + Replace(s[1..], from, to)
  }

  /** The clip name with spaces and slashes turned into underscores. */
  function NamePart(name: string): (r: string)
    ensures |r| == |name|
    ensures forall i :: 0 <= i < |name| ==>
      r[i] == if name[i] == ' ' || name[i] == '/' then '_' else name[i]
    ensures ' ' !in r && '/' !in r
  {
    Replace(Replace(name, ' ', '_'), '/', '_')
  }

  /** The text hashed for a clip: its source path, start and end (default -1), joined by `_`. */
  function HashInput(r: Record): string
    requires Readable(r)
  {
    PathOf(r) + "_" + IntToString(StartSec(r)) + "_" + IntToString(EndSec(r))
  }

  /** `generate_clip_filename`: name part, `_`, the first 8 digest characters, `.mp4`. */
  function GenerateClipFilename(r: Record, md5: string -> Digest): (f: string)
    requires Readable(r)
    ensures |f| == |Name(r)| + 13
    ensures f[..|Name(r)|] == NamePart(Name(r)) && f[|Name(r)|] == '_'
    ensures f[|Name(r)| + 1..|Name(r)| + 9] == md5(HashInput(r))[..8]
    ensures forall i :: |Name(r)| < i < |Name(r)| + 9 ==> f[i] in HexDigits
    ensures f[|f| - 4..] == ".mp4"
    ensures '/' !in f
  {
    var d := md5(HashInput(r));
    assert forall i :: 0 <= i < 8 ==> d[..8][i] in HexDigits by {
      forall i | 0 <= i < 8
        ensures d[..8][i] in HexDigits
      {
        assert d[..8][i] == d[i];
      }
    }
    FilenameShape(NamePart(Name(r)), d[..8]);
    NamePart(Name(r)) + "_" + d[..8] + ".mp4"
  }

  lemma FilenameShape(n: string, h: string)
    requires |h| == 8 && (forall i :: 0 <= i < 8 ==> h[i] in HexDigits) && '/' !in n
    ensures var f := n + "_" + h + ".mp4";
      && |f| == |n| + 13
      && f[..|n|] == n && f[|n|] == '_'
      && f[|n| + 1..|n| + 9] == h
      && (forall i :: |n| < i < |n| + 9 ==> f[i] in HexDigits)
      && f[|f| - 4..] == ".mp4"
      && '/' !in f
  {
    var f := n + "_" + h + ".mp4";
    assert '/' !in HexDigits;
    assert '/' !in h;
    assert forall i :: |n| < i < |n| + 9 ==> f[i] == h[i - |n| - 1];
    assert f[|n| + 1..|n| + 9] == h;
  }

  /** `PROCESSED_DIR / output_filename`. */
  function OutputPath(r: Record, md5: string -> Digest): string
    requires Readable(r)
  {
    ProcessedDir + "/" + GenerateClipFilename(r, md5)
  }

  /** The filename depends on name, file_path, start_sec and end_sec (default -1) and nothing else. */
  lemma FilenameDependsOnTimingAndSource(r1: Record, r2: Record, md5: string -> Digest)
    requires Readable(r1) && Readable(r2)
    requires Name(r1) == Name(r2) && PathOf(r1) == PathOf(r2)
    requires StartSec(r1) == StartSec(r2) && EndSec(r1) == EndSec(r2)
    ensures GenerateClipFilename(r1, md5) == GenerateClipFilename(r2, md5)
  {
  }

  /**
   * Two clips whose names agree once spaces and slashes become underscores,
   * and whose source and timing agree, are written to the same file.
   */
  lemma SameNamePartSameFile(r1: Record, r2: Record, md5: string -> Digest)
    requires Readable(r1) && Readable(r2)
    requires NamePart(Name(r1)) == NamePart(Name(r2)) && HashInput(r1) == HashInput(r2)
    ensures GenerateClipFilename(r1, md5) == GenerateClipFilename(r2, md5)
  {
  }

  /** For instance, names differing only in a space versus an underscore share the file. */
  lemma SpaceAndUnderscoreCollide(r1: Record, r2: Record, md5: string -> Digest)
    requires Readable(r1) && Readable(r2)
    requires Name(r1) == "a b" && Name(r2) == "a_b" && HashInput(r1) == HashInput(r2)
    ensures GenerateClipFilename(r1, md5) == GenerateClipFilename(r2, md5)
  {
    assert NamePart("a b") == NamePart("a_b");
    SameNamePartSameFile(r1, r2, md5);
  }

  // ----- ffmpeg command ------------------------------------------------

  lemma IntTextIsNotAFlag(i: int)
    ensures IntToString(i) != "-t"
  {
    if i < 0 {
      assert IntToString(i)[1] == NatToString(-i)[0];
    }
  }

  /**
   * The command `extract_clip` runs: input before `-ss` for accurate
   * seeking, `-t` with the segment length exactly when the clip has an end,
   * then the fixed encoding options and the output file.
   */
  method ExtractArgs(sourceFile: string, startSec: int, endSec: int, outputFile: string) returns (cmd: seq<string>)
    ensures |cmd| == if endSec >= 0 then 27 else 25
    ensures cmd[0] == "ffmpeg" && cmd[2] == "-i" && cmd[3] == sourceFile
    ensures cmd[4] == "-ss" && cmd[5] == IntToString(startSec)
    ensures forall i :: 4 <= i < |cmd| - 1 ==> (cmd[i] == "-t" <==> endSec >= 0 && i == 6)
    ensures endSec >= 0 ==> cmd[7] == IntToString(endSec - startSec)
    ensures cmd[|cmd| - 1] == outputFile
  {
    cmd := ["ffmpeg", "-y", "-i", sourceFile, "-ss", IntToString(startSec)];
    if endSec >= 0 {
      var duration := endSec - startSec;
      cmd := cmd + ["-t", IntToString(duration)];
      IntTextIsNotAFlag(duration);
    }
    IntTextIsNotAFlag(startSec);
    cmd := cmd + [
      "-vf", "scale=" + Scale + ",fps=" + Framerate,
      "-c:v", "libx264",
      "-preset", Preset,
      "-b:v", VideoBitrate,
      "-c:a", "aac",
      "-b:a", "96k",
      "-avoid_negative_ts", "make_zero",
      "-reset_timestamps", "1",
      "-fflags", "+genpts",
      outputFile
    ];
  }

  // ----- record rewriting and the processing loop ----------------------

  const RewrittenKeys: set<string> :=
    {"file_path", "start_sec", "end_sec", "original_file", "original_start", "original_end"}

  /** The record written for an extracted clip. */
  function Rewrite(clip: Record, out: string): Record
    requires Readable(clip)
  {
    var start, end := StartSec(clip), EndSec(clip);
    clip["file_path" := Text(out)]
        ["start_sec" := Number(0)]
        ["end_sec" := Number(if end >= 0 then end - start else -1)]
        ["original_file" := Text(PathOf(clip))]
        ["original_start" := Number(start)]
        ["original_end" := Number(end)]
  }

  /**
   * The rewritten record points at the extracted file, starts at 0, keeps
   * the segment length (or -1), remembers the original source and timing,
   * and carries every other key unchanged.
   */
  lemma RewriteFields(clip: Record, out: string)
    requires Readable(clip)
    ensures var r := Rewrite(clip, out);
      && Readable(r)
      && PathOf(r) == out && Name(r) == Name(clip)
      && StartSec(r) == 0
      && EndSec(r) == (if EndSec(clip) >= 0 then EndSec(clip) - StartSec(clip) else -1)
      && r["original_file"] == Text(PathOf(clip))
      && r["original_start"] == Number(StartSec(clip))
      && r["original_end"] == Number(EndSec(clip))
      && (forall k :: k !in RewrittenKeys ==> (k in r <==> k in clip))
      && (forall k :: k !in RewrittenKeys && k in clip ==> r[k] == clip[k])
  {
  }

  /** Processing an already processed record again keeps its timing: it still starts at 0 with the same end. */
  lemma RewriteTwiceKeepsTiming(clip: Record, out1: string, out2: string)
    requires Readable(clip) && (EndSec(clip) < 0 || EndSec(clip) >= StartSec(clip))
    ensures Readable(Rewrite(clip, out1))
    ensures var r := Rewrite(Rewrite(clip, out1), out2);
      Readable(r) && StartSec(r) == 0 && EndSec(r) == EndSec(Rewrite(clip, out1))
  {
    RewriteFields(clip, out1);
    RewriteFields(Rewrite(clip, out1), out2);
  }

  /** The files on disk, the records collected, and the success and failure counters. */
  datatype Progress = Progress(files: set<string>, processed: seq<Record>, success: nat, fail: nat)

  predicate Inputs(clips: seq<Record>, extracted: seq<bool>) {
    |clips| == |extracted| && forall i :: 0 <= i < |clips| ==> Readable(clips[i])
  }

  /**
   * One pass of the loop in `process_clips`, with `force` as a parameter:
   * a missing source fails; an existing output is skipped and counts as a
   * success unless forced; otherwise ffmpeg runs and, when it succeeds,
   * its output exists and the rewritten record is collected.
   */
  function Visit(p: Progress, clip: Record, extracted: bool, force: bool, md5: string -> Digest): Progress
    requires Readable(clip)
  {
    if PathOf(clip) !in p.files then p.(fail := p.fail + 1)
    else
      var out := OutputPath(clip, md5);
      if out in p.files && !force then p.(success := p.success + 1)
      else if extracted then Progress(p.files + {out}, p.processed + [Rewrite(clip, out)], p.success + 1, p.fail)
      else p.(fail := p.fail + 1)
  }

  function Visits(p: Progress, clips: seq<Record>, extracted: seq<bool>, force: bool, md5: string -> Digest): Progress
    requires Inputs(clips, extracted)
    decreases |clips|
  {
    if clips == [] then p
    else
      Visit(Visits(p, clips[..|clips| - 1], extracted[..|clips| - 1], force, md5),
            clips[|clips| - 1], extracted[|clips| - 1], force, md5)
  }

  /** A clip whose source is missing counts one failure and changes nothing else. */
  lemma MissingSourceFails(p: Progress, clip: Record, extracted: bool, force: bool, md5: string -> Digest)
    requires Readable(clip) && PathOf(clip) !in p.files
    ensures Visit(p, clip, extracted, force, md5) == p.(fail := p.fail + 1)
  {
  }

  /** Without `force`, an existing output counts as a success and is not collected. */
  lemma ExistingOutputSkipped(p: Progress, clip: Record, extracted: bool, md5: string -> Digest)
    requires Readable(clip) && PathOf(clip) in p.files && OutputPath(clip, md5) in p.files
    ensures Visit(p, clip, extracted, false, md5) == p.(success := p.success + 1)
  {
  }

  /** With `force`, an existing output is extracted again and collected when ffmpeg succeeds. */
  lemma ForcedReextraction(p: Progress, clip: Record, md5: string -> Digest)
    requires Readable(clip) && PathOf(clip) in p.files
    ensures Visit(p, clip, true, true, md5).processed == p.processed + [Rewrite(clip, OutputPath(clip, md5))]
    ensures Visit(p, clip, false, true, md5) == p.(fail := p.fail + 1)
  {
  }

  lemma {:induction false} PrefixInputs(clips: seq<Record>, extracted: seq<bool>, i: nat)
    requires Inputs(clips, extracted) && i <= |clips|
    ensures Inputs(clips[..i], extracted[..i])
  {
  }

  /**
   * Every visited clip adds exactly one to the success or the failure
   * count, and a collected record is always also a success.
   */
  lemma {:induction false} EveryClipCounted(p: Progress, clips: seq<Record>, extracted: seq<bool>, force: bool, md5: string -> Digest)
    requires Inputs(clips, extracted)
    ensures var r := Visits(p, clips, extracted, force, md5);
      && r.success + r.fail == p.success + p.fail + |clips|
      && |p.processed| <= |r.processed|
      && |r.processed| - |p.processed| <= r.success - p.success
      && r.processed[..|p.processed|] == p.processed
    decreases |clips|
  {
    if clips != [] {
      EveryClipCounted(p, clips[..|clips| - 1], extracted[..|clips| - 1], force, md5);
    }
  }

  /** One visit collects at most the rewrite of its own clip, and only when ffmpeg succeeded. */
  lemma VisitCollectsOwnClip(q: Progress, clip: Record, extracted: bool, force: bool, md5: string -> Digest)
    requires Readable(clip)
    ensures var r := Visit(q, clip, extracted, force, md5);
      && |q.processed| <= |r.processed| <= |q.processed| + 1
      && r.processed[..|q.processed|] == q.processed
      && (|r.processed| > |q.processed| ==> extracted && r.processed[|q.processed|] == Rewrite(clip, OutputPath(clip, md5)))
  {
  }

  /** The record is the rewrite of some clip whose extraction succeeded, at that clip's output path. */
  predicate FreshlyExtracted(rec: Record, clips: seq<Record>, extracted: seq<bool>, md5: string -> Digest)
    requires Inputs(clips, extracted)
  {
    exists i :: 0 <= i < |clips| && extracted[i] && rec == Rewrite(clips[i], OutputPath(clips[i], md5))
  }

  lemma FreshlyExtractedExtends(rec: Record, clips: seq<Record>, extracted: seq<bool>, md5: string -> Digest)
    requires Inputs(clips, extracted) && |clips| > 0
    requires Inputs(clips[..|clips| - 1], extracted[..|clips| - 1])
    requires FreshlyExtracted(rec, clips[..|clips| - 1], extracted[..|clips| - 1], md5)
    ensures FreshlyExtracted(rec, clips, extracted, md5)
  {
    var n := |clips| - 1;
    var i :| 0 <= i < n && extracted[..n][i] && rec == Rewrite(clips[..n][i], OutputPath(clips[..n][i], md5));
    assert clips[..n][i] == clips[i] && extracted[..n][i] == extracted[i];
  }

  predicate AllFreshlyExtracted(recs: seq<Record>, clips: seq<Record>, extracted: seq<bool>, md5: string -> Digest)
    requires Inputs(clips, extracted)
  {
    forall k :: 0 <= k < |recs| ==> FreshlyExtracted(recs[k], clips, extracted, md5)
  }

  /** Only freshly extracted clips are collected. */
  lemma {:induction false} CollectedAreExtracted(p: Progress, clips: seq<Record>, extracted: seq<bool>, force: bool, md5: string -> Digest)
    requires Inputs(clips, extracted)
    ensures |p.processed| <= |Visits(p, clips, extracted, force, md5).processed|
    ensures AllFreshlyExtracted(Visits(p, clips, extracted, force, md5).processed[|p.processed|..], clips, extracted, md5)
    decreases |clips|
  {
    if clips == [] {
      assert Visits(p, clips, extracted, force, md5).processed[|p.processed|..] == [];
    } else {
      var n := |clips| - 1;
      PrefixInputs(clips, extracted, n);
      var q := Visits(p, clips[..n], extracted[..n], force, md5);
      CollectedAreExtracted(p, clips[..n], extracted[..n], force, md5);
      var qs := q.processed[|p.processed|..];
      assert AllFreshlyExtracted(qs, clips[..n], extracted[..n], md5);
      var r := Visit(q, clips[n], extracted[n], force, md5);
      assert r == Visits(p, clips, extracted, force, md5);
      VisitCollectsOwnClip(q, clips[n], extracted[n], force, md5);
      var rs := r.processed[|p.processed|..];
      forall k | 0 <= k < |rs|
        ensures FreshlyExtracted(rs[k], clips, extracted, md5)
      {
        if k < |qs| {
          assert rs[k] == r.processed[|p.processed| + k] == r.processed[..|q.processed|][|p.processed| + k] == qs[k];
          assert FreshlyExtracted(qs[k], clips[..n], extracted[..n], md5);
          FreshlyExtractedExtends(qs[k], clips, extracted, md5);
        } else {
          assert rs[k] == r.processed[|q.processed|];
          assert extracted[n] && rs[k] == Rewrite(clips[n], OutputPath(clips[n], md5));
        }
      }
    }
  }

  /** One iteration of the loop in `process_clips`. */
  method ProcessOne(clip: Record, extracted: bool, force: bool, md5: string -> Digest,
                    disk: set<string>, processed: seq<Record>, success: nat, fail: nat)
    returns (disk': set<string>, processed': seq<Record>, success': nat, fail': nat)
    requires Readable(clip)
    ensures Progress(disk', processed', success', fail') == Visit(Progress(disk, processed, success, fail), clip, extracted, force, md5)
  {
    disk', processed', success', fail' := disk, processed, success, fail;
    if PathOf(clip) !in disk {
      fail' := fail + 1;
      return;
    }
    var out := OutputPath(clip, md5);
    if out in disk && !force {
      success' := success + 1;
      return;
    }
    if extracted {
      disk' := disk + {out};
      processed' := processed + [Rewrite(clip, out)];
      success' := success + 1;
    } else {
      fail' := fail + 1;
    }
  }

  /**
   * `process_clips` with `force` given: a missing configuration file
   * returns false having done nothing; otherwise the output JSON holds the
   * collected records and is written only when there are some, and the
   * result is whether any clip succeeded.
   */
  method ProcessClips(loaded: Option<seq<Record>>, files: set<string>, extracted: seq<bool>, force: bool, md5: string -> Digest)
    returns (success: nat, fail: nat, written: Option<seq<Record>>, ok: bool)
    requires loaded.Some? ==> Inputs(loaded.value, extracted)
    ensures loaded.None? ==> success == 0 && fail == 0 && written == None && !ok
    ensures loaded.Some? ==>
      var r := Visits(Progress(files, [], 0, 0), loaded.value, extracted, force, md5);
      && success == r.success && fail == r.fail
      && (written.Some? <==> r.processed != [])
      && (written.Some? ==> written.value == r.processed)
    ensures ok <==> success > 0
  {
    if loaded.None? {
      return 0, 0, None, false;
    }
    var clips := loaded.value;
    var disk := files;
    var processed: seq<Record> := [];
    success, fail := 0, 0;
    var i := 0;
    while i < |clips|
      invariant 0 <= i <= |clips|
      invariant Inputs(clips[..i], extracted[..i])
      invariant Progress(disk, processed, success, fail) == Visits(Progress(files, [], 0, 0), clips[..i], extracted[..i], force, md5)
    {
      assert clips[..i + 1][..i] == clips[..i] && extracted[..i + 1][..i] == extracted[..i];
      PrefixInputs(clips, extracted, i + 1);
      disk, processed, success, fail := ProcessOne(clips[i], extracted[i], force, md5, disk, processed, success, fail);
      i := i + 1;
    }
    assert clips[..i] == clips && extracted[..i] == extracted;
    written := if processed != [] then Some(processed) else None;
    ok := success > 0;
  }

  // ----- the loop as written: `args` is not in scope -------------------

  /**
   * The loop as written reads `args.force` where no `args` exists, so the
   * first clip whose output already exists raises a NameError; the `and`
   * short-circuits and clips without an output never reach it.
   */
  function VisitAsWritten(p: Progress, clip: Record, extracted: bool, md5: string -> Digest): Result<Progress, string>
    requires Readable(clip)
  {
    if PathOf(clip) !in p.files then Success(p.(fail := p.fail + 1))
    else
      var out := OutputPath(clip, md5);
      if out in p.files then Failure("NameError: name 'args' is not defined")
      else if extracted then Success(Progress(p.files + {out}, p.processed + [Rewrite(clip, out)], p.success + 1, p.fail))
      else Success(p.(fail := p.fail + 1))
  }

  function VisitsAsWritten(p: Progress, clips: seq<Record>, extracted: seq<bool>, md5: string -> Digest): Result<Progress, string>
    requires Inputs(clips, extracted)
    decreases |clips|
  {
    if clips == [] then Success(p)
    else
      var before := VisitsAsWritten(p, clips[..|clips| - 1], extracted[..|clips| - 1], md5);
      if before.Failure? then before
      else VisitAsWritten(before.value, clips[|clips| - 1], extracted[|clips| - 1], md5)
  }

  /** A clip whose source and output both exist crashes the loop as written, where the skip was meant. */
  lemma ExistingOutputRaises(p: Progress, clip: Record, extracted: bool, md5: string -> Digest)
    requires Readable(clip) && PathOf(clip) in p.files && OutputPath(clip, md5) in p.files
    ensures VisitsAsWritten(p, [clip], [extracted], md5).Failure?
    ensures Visits(p, [clip], [extracted], false, md5) == p.(success := p.success + 1)
  {
    assert [clip][..0] == [] && [extracted][..0] == [];
  }

  /** When the loop as written gets through, it did what the corrected loop does, with or without `force`. */
  lemma {:induction false} AsWrittenAgreesWhenItSucceeds(p: Progress, clips: seq<Record>, extracted: seq<bool>, force: bool, md5: string -> Digest)
    requires Inputs(clips, extracted)
    requires VisitsAsWritten(p, clips, extracted, md5).Success?
    ensures VisitsAsWritten(p, clips, extracted, md5).value == Visits(p, clips, extracted, force, md5)
    decreases |clips|
  {
    if clips != [] {
      AsWrittenAgreesWhenItSucceeds(p, clips[..|clips| - 1], extracted[..|clips| - 1], force, md5);
    }
  }

  // ----- orphan selection ----------------------------------------------

  /** The index of the last `/` in `p`, if any. */
  function LastSlash(p: string): (r: Option<nat>)
    ensures r.Some? ==> r.value < |p| && p[r.value] == '/' && '/' !in p[r.value + 1..]
    ensures r.None? <==> '/' !in p
    decreases |p|
  {
    if p == [] then None
    else if p[|p| - 1] == '/' then Some(|p| - 1)
    else
      var q := p[..|p| - 1];
      assert p == q + [p[|p| - 1]];
      var r := LastSlash(q);
      assert r.Some? ==> p[r.value + 1..] == q[r.value + 1..] + [p[|p| - 1]];
      r
  }

  /** `Path(p).parent` for a path without `.` components or repeated slashes. */
  function Parent(p: string): string {
    match LastSlash(p)
    case None => "."
    case Some(i) => if i == 0 then "/" else p[..i]
  }

  /** `Path(p).name` for the same paths. */
  function BaseName(p: string): string {
    match LastSlash(p)
    case None => p
    case Some(i) => p[i + 1..]
  }

  lemma {:induction false} LastSlashBeforeName(dir: string, name: string)
    requires '/' !in name
    ensures LastSlash(dir + "/" + name) == Some(|dir|)
    decreases |name|
  {
    var p := dir + "/" + name;
    if name != [] {
      assert p[..|p| - 1] == dir + "/" + name[..|name| - 1];
      assert p[|p| - 1] == name[|name| - 1];
      LastSlashBeforeName(dir, name[..|name| - 1]);
    }
  }

  /** An output path lies in the processed-clips directory and is named by the generated filename. */
  lemma OutputPathSplits(clip: Record, md5: string -> Digest)
    requires Readable(clip)
    ensures Parent(OutputPath(clip, md5)) == ProcessedDir
    ensures BaseName(OutputPath(clip, md5)) == GenerateClipFilename(clip, md5)
  {
    var f := GenerateClipFilename(clip, md5);
    LastSlashBeforeName(ProcessedDir, f);
    var p := ProcessedDir + "/" + f;
    assert p[..|ProcessedDir|] == ProcessedDir;
    assert p[|ProcessedDir| + 1..] == f;
  }

  function RecordsHavePaths(records: seq<Record>): bool {
    forall i :: 0 <= i < |records| ==> HasPath(records[i])
  }

  /** The `file_path` of each entry. */
  function PathsOf(records: seq<Record>): (paths: seq<string>)
    requires RecordsHavePaths(records)
    ensures |paths| == |records| && forall i :: 0 <= i < |records| ==> paths[i] == PathOf(records[i])
  {
    seq(|records|, i requires 0 <= i < |records| => PathOf(records[i]))
  }

  /** The path names the file `name` of directory `dir`. */
  predicate RefersTo(path: string, dir: string, name: string) {
    Parent(path) == dir && BaseName(path) == name
  }

  /** The base names of the paths whose parent is `dir`. */
  function Referenced(paths: seq<string>, dir: string): set<string>
    decreases |paths|
  {
    if paths == [] then {}
    else
      var last := paths[|paths| - 1];
      Referenced(paths[..|paths| - 1], dir) + (if Parent(last) == dir then {BaseName(last)} else {})
  }

  lemma {:induction false} ReferencedMembers(paths: seq<string>, dir: string, name: string)
    ensures name in Referenced(paths, dir) <==> exists i :: 0 <= i < |paths| && RefersTo(paths[i], dir, name)
    decreases |paths|
  {
    if paths != [] {
      var n := |paths| - 1;
      var init := paths[..n];
      ReferencedMembers(init, dir, name);
      if name in Referenced(init, dir) {
        var i :| 0 <= i < n && RefersTo(init[i], dir, name);
        assert init[i] == paths[i];
      }
      if i :| 0 <= i < |paths| && RefersTo(paths[i], dir, name) {
        if i < n {
          assert init[i] == paths[i];
        }
      }
    }
  }

  predicate IsMp4(name: string) {
    |name| >= 4 && name[|name| - 4..] == ".mp4"
  }

  /** The `*.mp4` entries, in listing order, that no record refers to. */
  function Orphans(entries: seq<string>, refs: set<string>): (r: seq<string>)
    ensures |r| <= |entries|
    ensures forall x :: x in r <==> x in entries && IsMp4(x) && x !in refs
    decreases |entries|
  {
    if entries == [] then []
    else
      var last := entries[|entries| - 1];
      var init := entries[..|entries| - 1];
      assert entries == init + [last];
      Orphans(init, refs) + (if IsMp4(last) && last !in refs then [last] else [])
  }

  /** The first loop of `cleanup_orphaned`: the names the saved records refer to inside `dir`. */
  method CollectReferenced(records: seq<Record>, dir: string) returns (refs: set<string>)
    requires RecordsHavePaths(records)
    ensures refs == Referenced(PathsOf(records), dir)
  {
    refs := {};
    var i := 0;
    while i < |records|
      invariant 0 <= i <= |records|
      invariant refs == Referenced(PathsOf(records)[..i], dir)
    {
      assert PathsOf(records)[..i + 1][..i] == PathsOf(records)[..i];
      var path := PathOf(records[i]);
      if Parent(path) == dir {
        refs := refs + {BaseName(path)};
      }
      i := i + 1;
    }
    assert PathsOf(records)[..i] == PathsOf(records);
  }

  /** The second loop of `cleanup_orphaned`: the `.mp4` entries to unlink. */
  method SelectOrphans(entries: seq<string>, refs: set<string>) returns (removed: seq<string>)
    ensures removed == Orphans(entries, refs)
  {
    removed := [];
    var j := 0;
    while j < |entries|
      invariant 0 <= j <= |entries|
      invariant removed == Orphans(entries[..j], refs)
    {
      assert entries[..j + 1][..j] == entries[..j];
      var name := entries[j];
      if IsMp4(name) && name !in refs {
        removed := removed + [name];
      }
      j := j + 1;
    }
    assert entries[..j] == entries;
  }

  /**
   * `cleanup_orphaned`: nothing happens without the directory; without
   * the output JSON every `.mp4` file is orphaned; otherwise exactly the
   * `.mp4` files not referenced are removed. `kept` is the number of
   * referenced names.
   */
  method CleanupOrphaned(dirExists: bool, saved: Option<seq<Record>>, entries: seq<string>)
    returns (removed: seq<string>, kept: nat)
    requires saved.Some? ==> RecordsHavePaths(saved.value)
    ensures !dirExists ==> removed == [] && kept == 0
    ensures dirExists ==>
      var refs := if saved.Some? then Referenced(PathsOf(saved.value), ProcessedDir) else {};
      removed == Orphans(entries, refs) && kept == |refs|
    ensures forall x :: x in removed ==> dirExists && x in entries && IsMp4(x)
  {
    if !dirExists {
      return [], 0;
    }
    var refs: set<string> := {};
    if saved.Some? {
      refs := CollectReferenced(saved.value, ProcessedDir);
    }
    removed := SelectOrphans(entries, refs);
    kept := |refs|;
  }

  /** A file the processor collected is never removed by a cleanup that reads the records it saved. */
  lemma CollectedNeverOrphaned(clip: Record, md5: string -> Digest, saved: seq<Record>, entries: seq<string>)
    requires Readable(clip) && RecordsHavePaths(saved)
    requires Rewrite(clip, OutputPath(clip, md5)) in saved
    ensures GenerateClipFilename(clip, md5) !in Orphans(entries, Referenced(PathsOf(saved), ProcessedDir))
  {
    var out := OutputPath(clip, md5);
    RewriteFields(clip, out);
    OutputPathSplits(clip, md5);
    var i :| 0 <= i < |saved| && saved[i] == Rewrite(clip, out);
    assert PathsOf(saved)[i] == out;
    ReferencedMembers(PathsOf(saved), ProcessedDir, GenerateClipFilename(clip, md5));
  }
}
