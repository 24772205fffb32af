/**
 * Note arithmetic of the chord explorer (Learn_Chords/js/theory.js): the
 * twelve pitch-class names, the interval table, offsetting a note by
 * semitones, parsing "C#4"-style note text, and the semitone distance from
 * A4 that `getFrequency` raises 2 to. `Math.pow` is a parameter.
 */
module Theory {
  import opened Options
  import opened JsSemantics

  /** `NOTES`, sharps only, starting at C. */
  const Notes: seq<string> := ["C", "C#", "D", "D#", "E", "F", "F#", "G", "G#", "A", "A#", "B"]

  /** Index of "A" in `Notes`, the reference of `getFrequency`. */
  const AIndex: int := 9

  /** `NOTES.indexOf(s)`, decided on the characters of `s`: the position of `s`
      in `Notes`, or -1 when it is not one of them. */
  function NoteIndex(s: string): (r: int)
    ensures -1 <= r < |Notes|
    ensures r >= 0 ==> Notes[r] == s
    ensures r == -1 ==> s !in Notes
  {
    if |s| == 1 then
      match s[0]
      case 'C' => 0
      case 'D' => 2
      case 'E' => 4
      case 'F' => 5
      case 'G' => 7
      case 'A' => 9
      case 'B' => 11
      case _ => -1
    else if |s| == 2 && s[1] == '#' then
      match s[0]
      case 'C' => 1
      case 'D' => 3
      case 'F' => 6
      case 'G' => 8
      case 'A' => 10
      case _ => -1
    else -1
  }

  /** Each name sits at exactly one position, so `NoteIndex` is `indexOf`, and
      the names are pairwise distinct. */
  lemma IndexOfNote(i: int)
    requires 0 <= i < |Notes|
    ensures NoteIndex(Notes[i]) == i
  {
  }

  lemma NotesDistinct()
    ensures forall i, j :: 0 <= i < j < |Notes| ==> Notes[i] != Notes[j]
  {
    forall i, j | 0 <= i < j < |Notes|
      ensures Notes[i] != Notes[j]
    {
      IndexOfNote(i);
      IndexOfNote(j);
    }
  }

  /** `NoteIndex` agrees with `Array.prototype.indexOf` on `Notes`. */
  lemma NoteIndexIsIndexOf(s: string)
    ensures NoteIndex(s) == IndexOf(Notes, s)
  {
    var r := NoteIndex(s);
    var i := IndexOf(Notes, s);
    if r >= 0 {
      IndexOfNote(r);
      IndexOfNote(i);
    }
  }

  /** The names are already upper case, so `toUpperCase` leaves them alone. */
  lemma NotesAreUpperCase(i: int)
    requires 0 <= i < |Notes|
    ensures ToUpper(Notes[i]) == Notes[i]
  {
  }

  /** `INTERVALS`: interval names to semitones above the root. */
  const Intervals: map<string, int> := map[
    "R" := 0, "b2" := 1, "2" := 2, "b3" := 3, "3" := 4, "4" := 5,
    "b5" := 6, "5" := 7, "#5" := 8, "6" := 9, "b7" := 10, "7" := 11
  ]

  /** The interval names in semitone order, the inverse of `Intervals`. */
  const IntervalNames: seq<string> := ["R", "b2", "2", "b3", "3", "4", "b5", "5", "#5", "6", "b7", "7"]

  /** `Intervals` is a bijection from its twelve names onto 0..11: each semitone
      count has exactly one name, and every name maps to its position. */
  lemma IntervalsBijective()
    ensures forall k :: 0 <= k < 12 ==> IntervalNames[k] in Intervals && Intervals[IntervalNames[k]] == k
    ensures forall name :: name in Intervals ==> 0 <= Intervals[name] < 12 && IntervalNames[Intervals[name]] == name
  {
    forall name | name in Intervals
      ensures 0 <= Intervals[name] < 12 && IntervalNames[Intervals[name]] == name
    {
    }
  }

  // ---------------------------------------------------------------------
  // getNoteFromOffset (Learn_Chords/js/theory.js:7-17)
  // ---------------------------------------------------------------------

  /** The note `semitones` above `startNote` (below, for negative counts), or "?"
      when the upper-cased start is not one of `Notes`. */
  function GetNoteFromOffset(startNote: string, semitones: int): (r: string)
    ensures ToUpper(startNote) !in Notes ==> r == "?"
    ensures ToUpper(startNote) in Notes ==> r == Notes[OffsetIndex(NoteIndex(ToUpper(startNote)), semitones)]
  {
    var index := NoteIndex(ToUpper(startNote));
    if index == -1 then "?" else Notes[OffsetIndex(index, semitones)]
  }

  /** `(index + semitones) % 12` in JavaScript, plus 12 when negative: the
      Euclidean remainder, always a position in `Notes`. */
  function OffsetIndex(index: int, semitones: int): (n: int)
    requires 0 <= index < 12
    ensures 0 <= n < 12 && n == (index + semitones) % 12
  {
    var newIndex := IntRem(index + semitones, 12);
    RemTwelveNormalised(index + semitones);
    if newIndex < 0 then newIndex + 12 else newIndex
  }

  /** The result is "?" exactly for an unknown start: "?" is not a note name. */
  lemma UnknownIffQuestionMark(startNote: string, semitones: int)
    ensures GetNoteFromOffset(startNote, semitones) == "?" <==> ToUpper(startNote) !in Notes
    ensures GetNoteFromOffset(startNote, semitones) == "?" || GetNoteFromOffset(startNote, semitones) in Notes
  {
    if ToUpper(startNote) in Notes {
      var n := OffsetIndex(NoteIndex(ToUpper(startNote)), semitones);
      assert Notes[n][0] != '?';
    }
  }

  /** "Db" upper-cases to "DB", which is not a name in `Notes`. */
  lemma FlatNamesAreUnknown()
    ensures GetNoteFromOffset("Db", 1) == "?"
  {
    assert ToUpper("Db") == "DB";
  }

  /** Offsetting one of the names by `k` steps `k` places along `Notes`, cyclically. */
  lemma OffsetOfNote(note: string, j: int, k: int)
    requires 0 <= j < 12 && note == Notes[j]
    ensures GetNoteFromOffset(note, k) == Notes[OffsetIndex(j, k)]
  {
    NotesAreUpperCase(j);
    IndexOfNote(j);
    assert Notes[j] in Notes;
  }

  /** Offsetting by `k` and then by `l` is offsetting by `k + l`. */
  lemma OffsetComposes(startNote: string, k: int, l: int)
    requires ToUpper(startNote) in Notes
    ensures GetNoteFromOffset(GetNoteFromOffset(startNote, k), l) == GetNoteFromOffset(startNote, k + l)
  {
    var a := NoteIndex(ToUpper(startNote));
    var j := OffsetIndex(a, k);
    OffsetOfNote(Notes[j], j, l);
    OffsetIndexComposes(a, k, l);
  }

  /** Offsetting by `k` and then by `-k` (or by any `l` with `k + l` a whole
      number of octaves) gives back the upper-cased start. */
  lemma OffsetRoundTrip(startNote: string, k: int, l: int)
    requires ToUpper(startNote) in Notes && (k + l) % 12 == 0
    ensures GetNoteFromOffset(GetNoteFromOffset(startNote, k), l) == ToUpper(startNote)
  {
    var a := NoteIndex(ToUpper(startNote));
    BackToStart(Notes[a], GetNoteFromOffset(startNote, k), a, k, l);
  }

  lemma BackToStart(start: string, there: string, a: int, k: int, l: int)
    requires 0 <= a < 12 && start == Notes[a] && there == Notes[OffsetIndex(a, k)] && (k + l) % 12 == 0
    ensures GetNoteFromOffset(there, l) == start
  {
    var j := OffsetIndex(a, k);
    OffsetOfNote(there, j, l);
    OffsetIndexComposes(a, k, l);
    OffsetIndexWholeOctaves(a, k + l);
  }

  /** Whole octaves leave the (upper-cased) name unchanged. */
  lemma OctavesAreIdentity(startNote: string, d: int)
    requires ToUpper(startNote) in Notes && d % 12 == 0
    ensures GetNoteFromOffset(startNote, d) == ToUpper(startNote)
  {
    OffsetIndexWholeOctaves(NoteIndex(ToUpper(startNote)), d);
  }

  lemma OffsetIndexComposes(i: int, k: int, l: int)
    requires 0 <= i < 12
    ensures OffsetIndex(OffsetIndex(i, k), l) == OffsetIndex(i, k + l)
  {
    ModTwelveShift(i + k, l);
  }

  lemma OffsetIndexWholeOctaves(i: int, d: int)
    requires 0 <= i < 12 && d % 12 == 0
    ensures OffsetIndex(i, d) == i
  {
    ModTwelveShift(d, i);
  }

  /** Modulo 12, reducing before adding changes nothing. */
  lemma ModTwelveShift(a: int, b: int)
    ensures (a % 12 + b) % 12 == (a + b) % 12
  {
    var q := a / 12;
    assert a == 12 * q + a % 12;
    assert a + b == (a % 12 + b) + 12 * q;
  }

  // ---------------------------------------------------------------------
  // parseNote (Learn_Chords/js/theory.js:19-25)
  // ---------------------------------------------------------------------

  /** `{ note, octave }` as `parseNote` returns it. */
  datatype ParsedNote = ParsedNote(note: string, octave: int)

  predicate IsNoteLetter(c: char) { 'A' <= c <= 'G' }

  /** Text matching `[A-G][#b]?`. */
  predicate NoteToken(n: string)
  {
    || (|n| == 1 && IsNoteLetter(n[0]))
    || (|n| == 2 && IsNoteLetter(n[0]) && (n[1] == '#' || n[1] == 'b'))
  }

  /** Text matching `-?\d+`. */
  predicate OctaveToken(t: string)
  {
    || (|t| >= 1 && AllDigits(t))
    || (|t| >= 2 && t[0] == '-' && AllDigits(t[1..]))
  }

  /** `parseInt` of text matching `-?\d+`. */
  function OctaveValue(t: string): int
    requires OctaveToken(t)
  {
    if t[0] == '-' then -(DecimalValue(t[1..]) as int) else DecimalValue(t)
  }

  /** `s` matches `^([A-G][#b]?)(-?\d+)$` with the two groups `note` and `octave`. */
  predicate MatchesNotePattern(s: string, note: string, octave: string)
  {
    s == note + octave && NoteToken(note) && OctaveToken(octave)
  }

  /** `parseNote`: the greedy reading of the pattern, or `None` for `null`. */
  function ParseNote(s: string): (r: Option<ParsedNote>)
  {
    if |s| == 0 || !IsNoteLetter(s[0]) then None
    else
      var k := if |s| >= 2 && (s[1] == '#' || s[1] == 'b') then 2 else 1;
      if OctaveToken(s[k..]) then Some(ParsedNote(s[..k], OctaveValue(s[k..]))) else None
  }

  /** Every text the pattern accepts is parsed into its two groups, whatever split
      of the text the match uses (the pattern admits only one). */
  lemma ParseNoteAcceptsPattern(s: string, note: string, octave: string)
    requires MatchesNotePattern(s, note, octave)
    ensures ParseNote(s) == Some(ParsedNote(note, OctaveValue(octave)))
  {
    assert s[..|note|] == note && s[|note|..] == octave;
    if |note| == 1 {
      assert s[1] == octave[0];
    }
  }

  /** Every parse comes from a match of the pattern: `null` exactly when the text
      does not match. */
  lemma ParseNoteOnlyPattern(s: string)
    requires ParseNote(s).Some?
    ensures exists note, octave :: MatchesNotePattern(s, note, octave)
    ensures MatchesNotePattern(s, ParseNote(s).value.note, s[|ParseNote(s).value.note|..])
  {
    var note := ParseNote(s).value.note;
    assert s == note + s[|note|..];
    assert MatchesNotePattern(s, note, s[|note|..]);
  }

  /** `OctaveValue` reads back `String(n)`. */
  lemma OctaveValueOfIntToString(n: int)
    ensures OctaveToken(IntToString(n)) && OctaveValue(IntToString(n)) == n
  {
    if n < 0 {
      var t := IntToString(n);
      assert t[1..] == NatToString(-n);
      DecimalValueOfNatToString(-n);
    } else {
      DecimalValueOfNatToString(n);
    }
  }

  /** Writing a name and an octave and parsing the text gives them back. */
  lemma ParseNoteRoundTrip(note: string, octave: int)
    requires NoteToken(note)
    ensures ParseNote(note + IntToString(octave)) == Some(ParsedNote(note, octave))
  {
    OctaveValueOfIntToString(octave);
    ParseNoteAcceptsPattern(note + IntToString(octave), note, IntToString(octave));
  }

  lemma ParseNoteExamples()
    ensures ParseNote("E2") == Some(ParsedNote("E", 2))
    ensures ParseNote("C#4") == Some(ParsedNote("C#", 4))
    ensures ParseNote("Db-1") == Some(ParsedNote("Db", -1))
    ensures ParseNote("H2") == None && ParseNote("E") == None && ParseNote("E2 ") == None
  {
    ParseNoteRoundTrip("E", 2);
    assert "E" + IntToString(2) == "E2";
    ParseNoteRoundTrip("C#", 4);
    assert "C#" + IntToString(4) == "C#4";
    ParseNoteRoundTrip("Db", -1);
    assert "Db" + IntToString(-1) == "Db-1";
    assert !OctaveToken("2 ") by { assert !IsDigit("2 "[1]); }
  }

  // ---------------------------------------------------------------------
  // getFrequency and getTuningOffsets (Learn_Chords/js/theory.js:27-49)
  // ---------------------------------------------------------------------

  /** `(octave - 4) * 12 + (noteIndex - aIndex)`, with `indexOf`'s -1 for unknown names. */
  function SemitonesFromA4(noteName: string, octave: int): int
  {
    (octave - 4) * 12 + (NoteIndex(noteName) - AIndex)
  }

  /** A4 is the reference, each octave adds 12, each step of `Notes` adds one,
      and an unknown name counts as index -1 (one below C). */
  lemma SemitonesFromA4Properties(noteName: string, octave: int)
    ensures SemitonesFromA4("A", 4) == 0
    ensures SemitonesFromA4(noteName, octave + 1) == SemitonesFromA4(noteName, octave) + 12
    ensures forall i :: 0 <= i < 12 ==> SemitonesFromA4(Notes[i], octave) == (octave - 4) * 12 + i - AIndex
    ensures noteName !in Notes ==> SemitonesFromA4(noteName, octave) == (octave - 4) * 12 - 1 - AIndex
  {
    NotesDistinct();
    forall i | 0 <= i < 12
      ensures SemitonesFromA4(Notes[i], octave) == (octave - 4) * 12 + i - AIndex
    {
      IndexOfNote(i);
    }
  }

  /** Offsetting a name by `k` moves its semitone distance by `k`, modulo the octave. */
  lemma OffsetMovesPitchClass(note: string, k: int, octave: int)
    requires note in Notes
    ensures GetNoteFromOffset(note, k) in Notes
    ensures (SemitonesFromA4(GetNoteFromOffset(note, k), octave) - SemitonesFromA4(note, octave) - k) % 12 == 0
  {
    var i := NoteIndex(note);
    NotesAreUpperCase(i);
    var j := (i + k) % 12;
    IndexOfNote(j);
    assert (j - i - k) % 12 == 0 by {
      ModTwelveShift(i + k, -i - k);
    }
    assert SemitonesFromA4(Notes[j], octave) - SemitonesFromA4(note, octave) - k == j - i - k;
  }

  /** `440 * Math.pow(2, semitonesFromA4 / 12)`, with the power function supplied. */
  function GetFrequency(noteName: string, octave: int, pow2: real -> real): real
  {
    440.0 * pow2(SemitonesFromA4(noteName, octave) as real / 12.0)
  }

  /** A4 sounds at 440 Hz (ISO 16) whenever `pow2(0)` is 1. */
  lemma ConcertPitch(pow2: real -> real)
    requires pow2(0.0) == 1.0
    ensures GetFrequency("A", 4, pow2) == 440.0
  {
    SemitonesFromA4Properties("A", 4);
  }

  /** `tuningArray.map(parseNote)`. */
  function GetTuningOffsets(tuning: seq<string>): (r: seq<Option<ParsedNote>>)
    ensures |r| == |tuning|
    ensures forall i :: 0 <= i < |tuning| ==> r[i] == ParseNote(tuning[i])
  {
    if tuning == [] then [] else [ParseNote(tuning[0])] + GetTuningOffsets(tuning[1..])
  }

  /** The standard tuning, low string first. */
  const StandardTuning: seq<string> := ["E2", "A2", "D3", "G3", "B3", "E4"]

  lemma StandardTuningParses()
    ensures GetTuningOffsets(StandardTuning) == [
      Some(ParsedNote("E", 2)), Some(ParsedNote("A", 2)), Some(ParsedNote("D", 3)),
      Some(ParsedNote("G", 3)), Some(ParsedNote("B", 3)), Some(ParsedNote("E", 4))]
  {
    ParseNoteRoundTrip("E", 2);
    ParseNoteRoundTrip("A", 2);
    ParseNoteRoundTrip("D", 3);
    ParseNoteRoundTrip("G", 3);
    ParseNoteRoundTrip("B", 3);
    ParseNoteRoundTrip("E", 4);
    assert "E" + IntToString(2) == "E2" && "A" + IntToString(2) == "A2";
    assert "D" + IntToString(3) == "D3" && "G" + IntToString(3) == "G3";
    assert "B" + IntToString(3) == "B3" && "E" + IntToString(4) == "E4";
  }
}
