/**
 * Note names to MIDI note numbers (`note_to_midi` in tools.py).
 *
 * A name is a pitch ("C", "C#", ..., "B") followed by a signed decimal
 * octave; octave -2 starts at MIDI note 0.
 */
module Notes {
  import opened Wrappers
  import opened Decimal

  /** The exception Python raises on a malformed name. */
  datatype NoteError =
    | IndexError   // fewer than two characters: `note[1]` does not exist
    | ValueError   // the octave part is not an integer
    | KeyError     // the pitch part is not one of the twelve names

  const PitchClasses: map<string, nat> := map[
    "C" := 0, "C#" := 1, "D" := 2, "D#" := 3, "E" := 4, "F" := 5,
    "F#" := 6, "G" := 7, "G#" := 8, "A" := 9, "A#" := 10, "B" := 11]

  /** Non-sharp pitches that have a sharp one semitone above them. */
  const Sharpable: set<string> := {"C", "D", "F", "G", "A"}

  /**
   * The octave is parsed before the pitch is looked up, so a name that is
   * wrong in both places raises ValueError.
   */
  function NoteToMidi(note: string): Result<int, NoteError> {
    if |note| < 2 then Failure(IndexError)
    else
      var split := if note[1] == '#' then 2 else 1;
      var pitch := note[..split];
      match ParseInt(note[split..])
      case None => Failure(ValueError)
      case Some(octave) =>
        if pitch in PitchClasses then Success((octave + 2) * 12 + PitchClasses[pitch])
        else Failure(KeyError)
  }

  lemma PitchNameShape(p: string)
    requires p in PitchClasses
    ensures |p| == 1 || (|p| == 2 && p[1] == '#')
    ensures PitchClasses[p] < 12
  {
  }

  /** Every pitch name followed by `str(octave)` converts by the formula. */
  lemma NoteOfName(p: string, octave: int)
    requires p in PitchClasses
    ensures NoteToMidi(p + IntToString(octave)) == Success((octave + 2) * 12 + PitchClasses[p])
  {
    var digits := IntToString(octave);
    var note := p + digits;
    PitchNameShape(p);
    IntRoundTrip(octave);
    if |p| == 1 {
      assert note[1] == digits[0];
      assert note[..1] == p && note[1..] == digits;
    } else {
      assert note[..2] == p && note[2..] == digits;
    }
  }

  /** The number determines the name: its remainder is the pitch, its quotient the octave. */
  lemma PitchAndOctaveRecovered(p: string, octave: int)
    requires p in PitchClasses
    ensures NoteToMidi(p + IntToString(octave)).Success?
    ensures NoteToMidi(p + IntToString(octave)).value % 12 == PitchClasses[p]
    ensures NoteToMidi(p + IntToString(octave)).value / 12 == octave + 2
  {
    NoteOfName(p, octave);
    PitchNameShape(p);
    var n := (octave + 2) * 12 + PitchClasses[p];
    assert n == (octave + 2) * 12 + PitchClasses[p] && 0 <= PitchClasses[p] < 12;
  }

  /** Raising the octave by one adds exactly twelve semitones. */
  lemma OctaveUp(p: string, octave: int)
    requires p in PitchClasses
    ensures NoteToMidi(p + IntToString(octave + 1)).Success?
    ensures NoteToMidi(p + IntToString(octave + 1)).value
         == NoteToMidi(p + IntToString(octave)).value + 12
  {
    NoteOfName(p, octave);
    NoteOfName(p, octave + 1);
  }

  /** The sharp of C, D, F, G or A is one semitone above the natural. */
  lemma SharpIsOneAbove(p: string, octave: int)
    requires p in Sharpable
    ensures NoteToMidi(p + "#" + IntToString(octave)).Success?
    ensures NoteToMidi(p + "#" + IntToString(octave)).value
         == NoteToMidi(p + IntToString(octave)).value + 1
  {
    assert p == "C" || p == "D" || p == "F" || p == "G" || p == "A";
    assert p + "#" in PitchClasses && PitchClasses[p + "#"] == PitchClasses[p] + 1 by {
      if p == "C" { assert p + "#" == "C#"; }
      else if p == "D" { assert p + "#" == "D#"; }
      else if p == "F" { assert p + "#" == "F#"; }
      else if p == "G" { assert p + "#" == "G#"; }
      else { assert p + "#" == "A#"; }
    }
    NoteOfName(p, octave);
    NoteOfName(p + "#", octave);
    assert p + "#" + IntToString(octave) == (p + "#") + IntToString(octave);
  }

  /** Distinct (pitch, octave) pairs give distinct note numbers. */
  lemma Injective(p1: string, o1: int, p2: string, o2: int)
    requires p1 in PitchClasses && p2 in PitchClasses
    requires p1 != p2 || o1 != o2
    ensures NoteToMidi(p1 + IntToString(o1)) != NoteToMidi(p2 + IntToString(o2))
  {
    PitchAndOctaveRecovered(p1, o1);
    PitchAndOctaveRecovered(p2, o2);
    NamesInvert(p1);
    NamesInvert(p2);
  }

  /** The pitch names in pitch-class order. */
  const PitchNames: seq<string> := ["C", "C#", "D", "D#", "E", "F", "F#", "G", "G#", "A", "A#", "B"]

  lemma NamesInvert(q: string)
    requires q in PitchClasses
    ensures PitchClasses[q] < |PitchNames| && PitchNames[PitchClasses[q]] == q
  {
  }

  /** The extremes of the MIDI range. */
  lemma RangeEnds()
    ensures NoteToMidi("C-2") == Success(0)
    ensures NoteToMidi("G8") == Success(127)
  {
    NoteOfName("C", -2);
    NoteOfName("G", 8);
    assert "C" + IntToString(-2) == "C-2";
    assert "G" + IntToString(8) == "G8";
  }

  /** A successful conversion always read a known pitch and an integer octave. */
  lemma SuccessShape(note: string)
    requires NoteToMidi(note).Success?
    ensures exists p | p in PitchClasses ::
      |p| < |note| && note[..|p|] == p && ParseInt(note[|p|..]).Some?
      && NoteToMidi(note).value == (ParseInt(note[|p|..]).value + 2) * 12 + PitchClasses[p]
  {
    var split := if note[1] == '#' then 2 else 1;
    var p := note[..split];
    assert p in PitchClasses && |p| == split;
  }

  /**
   * Flats, E#, B#, lower-case names and too-short strings raise. Note that
   * a flat raises ValueError: "Db4" is read as pitch "D" with octave "b4".
   */
  lemma Rejections(octave: int)
    ensures NoteToMidi("Db" + IntToString(octave)) == Failure(ValueError)
    ensures NoteToMidi("E#" + IntToString(octave)) == Failure(KeyError)
    ensures NoteToMidi("B#" + IntToString(octave)) == Failure(KeyError)
    ensures NoteToMidi("c" + IntToString(octave)) == Failure(KeyError)
    ensures NoteToMidi("C") == Failure(IndexError)
    ensures NoteToMidi("") == Failure(IndexError)
  {
    var d := IntToString(octave);
    IntRoundTrip(octave);
    var flat := "Db" + d;
    assert flat[1] == 'b' && flat[1..][0] == 'b';
    var e := "E#" + d;
    assert e[1] == '#' && e[..2] == "E#" && e[2..] == d;
    var b := "B#" + d;
    assert b[1] == '#' && b[..2] == "B#" && b[2..] == d;
    var c := "c" + d;
    assert c[1] == d[0] && c[..1] == "c" && c[1..] == d;
  }
}
