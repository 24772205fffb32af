/**
 * The fingering records shared by the chord explorer's two shape tables
 * (Learn_Chords/js/data.js and Learn_Chords/data.js): one entry per string,
 * with 1-based string numbers (1 = high E, 6 = low E), fret 0 for an open
 * string and -1 for a muted one, the interval the note plays in the chord,
 * and an optional barre.
 */
module Fingerings {
  import opened Options
  import opened JsSemantics
  import opened Theory

  /** `barreStart` / `barreEnd`: the strings a barre covers, low to high. */
  datatype BarreSpan = BarreSpan(barreStart: int, barreEnd: int)

  /** One fingering entry; `finger` is present only in Learn_Chords/data.js. */
  datatype Finger = Finger(stringNumber: int, fret: int, finger: Option<int>, interval: Option<string>, barre: Option<BarreSpan>)

  const MutedFret: int := -1

  predicate Muted(f: Finger) { f.fret == MutedFret }

  /** An entry on string `s`: its fret is -1 or more, it names an interval
      exactly when it sounds, and a barre starts on its own string and runs to
      string 1. */
  predicate WellFormedEntry(f: Finger, s: int)
  {
    && f.stringNumber == s
    && f.fret >= MutedFret
    && (Muted(f) <==> f.interval.None?)
    && (f.interval.Some? ==> f.interval.value in Intervals)
    && (f.barre.Some? ==> !Muted(f) && f.barre.value == BarreSpan(s, 1))
  }

  /** Six entries listing strings 6 down to 1, each once. */
  predicate WellFormedFingering(fs: seq<Finger>)
  {
    |fs| == 6 && forall k :: 0 <= k < 6 ==> WellFormedEntry(fs[k], 6 - k)
  }

  /** The open strings, low E first, as `parseNote` reads the standard tuning. */
  const OpenStringNotes: seq<ParsedNote> := [
    ParsedNote("E", 2), ParsedNote("A", 2), ParsedNote("D", 3),
    ParsedNote("G", 3), ParsedNote("B", 3), ParsedNote("E", 4)]

  /** The parsed name of open string `s` (1 = high E): the tuning entry at
      `tuning.length - s`. */
  function OpenStringNote(s: int): ParsedNote
    requires 1 <= s <= 6
  {
    OpenStringNotes[|OpenStringNotes| - s]
  }

  /** Parsing the standard tuning entry of string `s` gives its open note. */
  lemma OpenStringNoteParsed(s: int)
    requires 1 <= s <= 6
    ensures ParseNote(StandardTuning[|StandardTuning| - s]) == Some(OpenStringNote(s))
  {
    StandardTuningParses();
    assert GetTuningOffsets(StandardTuning)[|StandardTuning| - s] == ParseNote(StandardTuning[|StandardTuning| - s]);
  }

  /** The semitones from A4 of open string `s`. */
  function OpenStringPitch(s: int): int
    requires 1 <= s <= 6
  {
    SemitonesFromA4(OpenStringNote(s).note, OpenStringNote(s).octave)
  }

  /** E4, B3, G3, D3, A2, E2 are 5, 10, 14, 19, 24 and 29 semitones below A4. */
  lemma OpenStringPitches()
    ensures OpenStringPitch(1) == -5 && OpenStringPitch(2) == -10 && OpenStringPitch(3) == -14
    ensures OpenStringPitch(4) == -19 && OpenStringPitch(5) == -24 && OpenStringPitch(6) == -29
  {
    assert NoteIndex("E") == 4 && NoteIndex("B") == 11 && NoteIndex("G") == 7;
    assert NoteIndex("D") == 2 && NoteIndex("A") == 9;
  }

  /** The sounding pitch of an entry, in semitones from A4. */
  function EntryPitch(f: Finger): int
    requires 1 <= f.stringNumber <= 6
  {
    OpenStringPitch(f.stringNumber) + f.fret
  }

  /** The entry sounds the interval it is labelled with, above a root whose
      pitch class is `rootIndex` in `Notes` (A4 is index 9). */
  predicate SoundsItsInterval(f: Finger, rootIndex: int)
    requires 1 <= f.stringNumber <= 6
  {
    !Muted(f) && f.interval.Some? && f.interval.value in Intervals ==>
      (EntryPitch(f) + AIndex - rootIndex - Intervals[f.interval.value]) % 12 == 0
  }

  /** Every sounding entry of a six-string fingering is labelled with the
      interval it actually plays above the root. */
  predicate LabelsMatchPitches(fs: seq<Finger>, rootIndex: int)
  {
    |fs| == 6 && forall k :: 0 <= k < 6 && 1 <= fs[k].stringNumber <= 6 ==> SoundsItsInterval(fs[k], rootIndex)
  }

  /** A muted entry: string `s`, fret -1, nothing else. */
  function MutedOn(s: int): Finger { Finger(s, MutedFret, None, None, None) }

  /** A muted entry on string `s` is well formed and claims no interval. */
  lemma MutedOnGood(s: int, rootIndex: int)
    requires 1 <= s <= 6
    ensures WellFormedEntry(MutedOn(s), s) && SoundsItsInterval(MutedOn(s), rootIndex)
  {
  }

  /** A sounding entry on string `s` labelled with an interval of `v`
      semitones is well formed, and sounds that interval above the root when
      the open string's pitch plus the fret is `v` above the root modulo 12. */
  lemma SoundingEntryGood(f: Finger, s: int, v: int, rootIndex: int)
    requires 1 <= s <= 6 && f.stringNumber == s && f.fret >= 0
    requires f.interval.Some? && f.interval.value in Intervals && Intervals[f.interval.value] == v
    requires f.barre.Some? ==> f.barre.value == BarreSpan(s, 1)
    requires (OpenStringPitch(s) + f.fret + AIndex - rootIndex - v) % 12 == 0
    ensures WellFormedEntry(f, s) && SoundsItsInterval(f, rootIndex)
  {
  }

  /** Six entries that are good on strings 6 down to 1 make a well-formed,
      correctly labelled fingering. */
  lemma EntriesGood(fs: seq<Finger>, rootIndex: int)
    requires |fs| == 6
    requires forall k :: 0 <= k < 6 ==> WellFormedEntry(fs[k], 6 - k) && SoundsItsInterval(fs[k], rootIndex)
    ensures WellFormedFingering(fs) && LabelsMatchPitches(fs, rootIndex)
  {
  }

  /** The semitone values of the interval names the shape tables use. */
  lemma UsedIntervals()
    ensures "R" in Intervals && Intervals["R"] == 0
    ensures "b3" in Intervals && Intervals["b3"] == 3
    ensures "3" in Intervals && Intervals["3"] == 4
    ensures "5" in Intervals && Intervals["5"] == 7
    ensures "b7" in Intervals && Intervals["b7"] == 10
  {
    IntervalsBijective();
    assert IntervalNames[0] == "R" && IntervalNames[3] == "b3" && IntervalNames[4] == "3";
    assert IntervalNames[7] == "5" && IntervalNames[10] == "b7";
  }
}
