/**
 * The chord drawing of the modular chord explorer (Learn_Chords/js/core.js):
 * the stored C shape of the selected type and variation is transposed to the
 * selected root by shifting every sounding fret, the chord name is derived
 * from the shape name, and the frequencies to play are collected in the
 * shared application state (Learn_Chords/js/appState.js).
 */
module ChordCore {
  import opened Options
  import opened JsSemantics
  import opened Theory
  import opened Fingerings
  import opened ChordShapes

  /** `appState`: the fields the chord logic reads and writes. The tuning is
      the standard one and never changes; `activeFrets` holds frequencies. */
  class AppState {
    var root: string
    var chordType: string
    var variationIndex: int
    var capo: int
    var currentChordName: string
    var activeFrets: seq<real>

    constructor()
      ensures root == "C" && chordType == "major" && variationIndex == 0 && capo == 0
      ensures currentChordName == "C Major" && activeFrets == []
    {
      root := "C";
      chordType := "major";
      variationIndex := 0;
      capo := 0;
      currentChordName := "C Major";
      activeFrets := [];
    }
  }

  // ---------------------------------------------------------------------
  // Transposition (Learn_Chords/js/core.js:127-130, 157-161)
  // ---------------------------------------------------------------------

  /** `NOTES.indexOf(root) - NOTES.indexOf("C")`, plus 12 when negative. */
  function SemitoneShift(root: string): (shift: int)
    ensures 0 <= shift < 12
  {
    var s := NoteIndex(root) - NoteIndex("C");
    if s < 0 then s + 12 else s
  }

  /** The shift is the root's position in `Notes` counted from C; a root that
      is not one of the twelve sharp names has index -1, which wraps to 11. */
  lemma SemitoneShiftIsPosition(root: string)
    ensures root in Notes ==> Notes[SemitoneShift(root)] == root && SemitoneShift(root) == NoteIndex(root)
    ensures root !in Notes ==> SemitoneShift(root) == 11
  {
  }

  /** Offsetting C by the shift names the root again. */
  lemma ShiftReachesRoot(root: string)
    requires root in Notes
    ensures GetNoteFromOffset("C", SemitoneShift(root)) == root
  {
    var shift := SemitoneShift(root);
    SemitoneShiftIsPosition(root);
    IndexOfNote(0);
    OffsetOfNote("C", 0, shift);
  }

  /** A muted fret stays muted; any other fret moves up by the shift. */
  function DisplayFret(fret: int, shift: int): (d: int)
  {
    if fret != MutedFret then fret + shift else fret
  }

  /** The frequency of fret `fret` on string `s`:
      `getFrequency(open note) * Math.pow(2, fret / 12)`. */
  function StringFrequency(s: int, fret: int, pow2: real -> real): real
    requires 1 <= s <= 6
  {
    GetFrequency(OpenStringNote(s).note, OpenStringNote(s).octave, pow2) * pow2(fret as real / 12.0)
  }

  /** What one fingering entry adds to `activeFrets`: nothing when muted. */
  function EntryTone(f: Finger, shift: int, pow2: real -> real): seq<real>
    requires 1 <= f.stringNumber <= 6
  {
    var d := DisplayFret(f.fret, shift);
    if d != MutedFret then [StringFrequency(f.stringNumber, d, pow2)] else []
  }

  predicate OnStrings(fs: seq<Finger>)
  {
    forall k :: 0 <= k < |fs| ==> 1 <= fs[k].stringNumber <= 6
  }

  /** The frequencies `drawChord` collects, entry by entry in fingering order. */
  function ActiveFrequencies(fs: seq<Finger>, shift: int, pow2: real -> real): seq<real>
    requires OnStrings(fs)
  {
    if fs == [] then [] else ActiveFrequencies(fs[..|fs| - 1], shift, pow2) + EntryTone(fs[|fs| - 1], shift, pow2)
  }

  /** The shifted pitch of an entry, in semitones from A4; none when muted. */
  function ShiftedPitch(f: Finger, shift: int): seq<int>
    requires 1 <= f.stringNumber <= 6
  {
    if Muted(f) then [] else [EntryPitch(f) + shift]
  }

  /** The pitches of the sounding entries after the shift, in fingering order. */
  function SoundingPitches(fs: seq<Finger>, shift: int): seq<int>
    requires OnStrings(fs)
  {
    if fs == [] then [] else SoundingPitches(fs[..|fs| - 1], shift) + ShiftedPitch(fs[|fs| - 1], shift)
  }

  /** `pow2` at a sum of two exponents. */
  function PowOfSum(pow2: real -> real, x: real, y: real): real
  {
    pow2(x + y)
  }

  /** `pow2` behaves like `Math.pow(2, _)` on sums. */
  ghost predicate Exponential(pow2: real -> real)
  {
    forall x: real, y: real {:trigger PowOfSum(pow2, x, y)} :: pow2(x) * pow2(y) == PowOfSum(pow2, x, y)
  }

  /** With an exponential `pow2`, an entry that sounds adds
      `440 * 2^(p / 12)` for its shifted pitch `p`. */
  lemma EntryToneIsPitch(f: Finger, shift: int, pow2: real -> real)
    requires 1 <= f.stringNumber <= 6 && Exponential(pow2) && shift >= 0 && f.fret >= MutedFret
    ensures Muted(f) ==> EntryTone(f, shift, pow2) == []
    ensures !Muted(f) ==> EntryTone(f, shift, pow2) == [440.0 * pow2((EntryPitch(f) + shift) as real / 12.0)]
  {
    if !Muted(f) {
      var n := OpenStringNote(f.stringNumber);
      var a := SemitonesFromA4(n.note, n.octave) as real / 12.0;
      var b := (f.fret + shift) as real / 12.0;
      var pa, pb := pow2(a), pow2(b);
      assert pa * pb == PowOfSum(pow2, a, b) == pow2(a + b);
      assert a + b == (EntryPitch(f) + shift) as real / 12.0;
      assert StringFrequency(f.stringNumber, f.fret + shift, pow2) == (440.0 * pa) * pb;
      assert (440.0 * pa) * pb == 440.0 * (pa * pb);
    }
  }

  /** Each frequency is `440 * 2^(p / 12)` for the pitch `p` at the same place. */
  ghost predicate Tuned(freqs: seq<real>, pitches: seq<int>, pow2: real -> real)
  {
    |freqs| == |pitches| &&
    forall k :: 0 <= k < |pitches| ==> freqs[k] == 440.0 * pow2(pitches[k] as real / 12.0)
  }

  /** Tuned lists stay tuned when appended to each other. */
  lemma TunedAppend(freqs: seq<real>, pitches: seq<int>, tone: seq<real>, pitch: seq<int>, pow2: real -> real)
    requires Tuned(freqs, pitches, pow2) && Tuned(tone, pitch, pow2)
    ensures Tuned(freqs + tone, pitches + pitch, pow2)
  {
    var all, allPitches := freqs + tone, pitches + pitch;
    forall k | 0 <= k < |allPitches|
      ensures all[k] == 440.0 * pow2(allPitches[k] as real / 12.0)
    {
      if k < |pitches| {
        assert all[k] == freqs[k] && allPitches[k] == pitches[k];
      } else {
        assert all[k] == tone[k - |freqs|] && allPitches[k] == pitch[k - |pitches|];
      }
    }
  }

  /** With an exponential `pow2`, the collected frequencies are exactly
      `440 * 2^(p / 12)` for the pitches `p` of the sounding entries, in order:
      drawing a shape plays its transposed notes and nothing else. */
  lemma {:induction false} FrequenciesArePitches(fs: seq<Finger>, shift: int, pow2: real -> real)
    requires OnStrings(fs) && Exponential(pow2) && shift >= 0
    requires forall k :: 0 <= k < |fs| ==> fs[k].fret >= MutedFret
    ensures Tuned(ActiveFrequencies(fs, shift, pow2), SoundingPitches(fs, shift), pow2)
  {
    if fs != [] {
      var init := fs[..|fs| - 1];
      var f := fs[|fs| - 1];
      assert OnStrings(init) && forall k :: 0 <= k < |init| ==> init[k] == fs[k];
      FrequenciesArePitches(init, shift, pow2);
      EntryToneIsPitch(f, shift, pow2);
      var tone, pitch := EntryTone(f, shift, pow2), ShiftedPitch(f, shift);
      assert Tuned(tone, pitch, pow2);
      TunedAppend(ActiveFrequencies(init, shift, pow2), SoundingPitches(init, shift), tone, pitch, pow2);
    }
  }

  /** Shifting moves every sounding pitch by the same amount. */
  lemma {:induction false} ShiftTransposes(fs: seq<Finger>, shift: int)
    requires OnStrings(fs)
    ensures |SoundingPitches(fs, shift)| == |SoundingPitches(fs, 0)|
    ensures forall k :: 0 <= k < |SoundingPitches(fs, 0)| ==> SoundingPitches(fs, shift)[k] == SoundingPitches(fs, 0)[k] + shift
  {
    if fs != [] {
      ShiftTransposes(fs[..|fs| - 1], shift);
    }
  }

  /** Transposing a library shape to a root among the twelve names keeps every
      interval label true: each sounding entry, shifted, plays the labelled
      interval above the selected root. */
  lemma TransposedLabelsHold(sh: Shape, root: string, k: int)
    requires GoodShape(sh) && root in Notes && 0 <= k < 6
    requires !Muted(sh.fingering[k])
    ensures var f := sh.fingering[k];
      (EntryPitch(f) + SemitoneShift(root) + AIndex - NoteIndex(root) - Intervals[f.interval.value]) % 12 == 0
  {
    var f := sh.fingering[k];
    SemitoneShiftIsPosition(root);
    assert WellFormedEntry(f, 6 - k);
    assert SoundsItsInterval(f, ReferenceRoot);
  }

  // ---------------------------------------------------------------------
  // The chord name (Learn_Chords/js/core.js:123)
  // ---------------------------------------------------------------------

  /** The text of `s` up to its first space. */
  function UpToSpace(s: string): (w: string)
    ensures w <= s && ' ' !in w
    ensures |w| < |s| ==> s[|w|] == ' '
    ensures ' ' !in s ==> w == s
  {
    if s == [] || s[0] == ' ' then [] else [s[0]] + UpToSpace(s[1..])
  }

  /** `name.split(" ")[1]`: the second space-separated field, `None` when the
      name has no space. */
  function SecondField(name: string): Option<string>
  {
    var i := IndexOf(name, ' ');
    if i < 0 then None else Some(UpToSpace(name[i + 1..]))
  }

  /** `` `${root} ${name.split(" ")[1] || type}` ``: an empty or missing second
      field falls back to the chord type. */
  function ChordName(root: string, shapeName: string, chordType: string): (n: string)
    ensures root + " " <= n
    ensures ' ' !in shapeName ==> n == root + " " + chordType
  {
    var field := SecondField(shapeName);
    root + " " + if field.Some? && field.value != "" then field.value else chordType
  }

  /** The second field of a name whose first space is at `i`. */
  lemma SecondFieldAt(name: string, i: int)
    requires 0 <= i < |name| && name[i] == ' ' && ' ' !in name[..i]
    ensures SecondField(name) == Some(UpToSpace(name[i + 1..]))
  {
  }

  /** For a shape name whose first space is at `i`, the name is the root, a
      space and the word after that space, or the chord type when that word
      is empty (a trailing or doubled space). */
  lemma ChordNameFromSecondWord(root: string, shapeName: string, chordType: string, i: int)
    requires 0 <= i < |shapeName| && shapeName[i] == ' ' && ' ' !in shapeName[..i]
    ensures var word := UpToSpace(shapeName[i + 1..]);
      ChordName(root, shapeName, chordType) == root + " " + (if word != "" then word else chordType)
  {
    SecondFieldAt(shapeName, i);
  }

  /** The name keeps the second word of the shape name, whatever it is, so the
      drawn name is only approximate: the open C shape (`name` is "Open C")
      drawn on D is "D C". */
  lemma OpenShapeNameOnD(name: string)
    requires name == "Open C"
    ensures ChordName("D", name, "major") == "D C"
  {
    assert ' ' !in name[..4];
    SecondFieldAt(name, 4);
    assert name[5..] == "C";
  }

  /** The open C7 shape (`name` is "C7 Open") is named "C Open". */
  lemma SeventhShapeName(name: string)
    requires name == "C7 Open"
    ensures ChordName("C", name, "7") == "C Open"
  {
    assert ' ' !in name[..2];
    SecondFieldAt(name, 2);
    assert name[3..] == "Open";
  }

  // ---------------------------------------------------------------------
  // drawChord (Learn_Chords/js/core.js:118-247)
  // ---------------------------------------------------------------------

  /** The chord name and the frequencies after drawing: unchanged when there is
      no stored shape for the type and variation. */
  function Drawn(root: string, chordType: string, variationIndex: int, name: string, frets: seq<real>, pow2: real -> real): (r: (string, seq<real>))
  {
    match GetGenericShape(chordType, variationIndex)
    case None => (name, frets)
    case Some(sh) => (ChordName(root, sh.name, chordType), ActiveFrequencies(sh.fingering, SemitoneShift(root), pow2))
  }

  lemma ActiveFrequenciesStep(fs: seq<Finger>, i: int, shift: int, pow2: real -> real)
    requires OnStrings(fs) && 0 <= i < |fs|
    ensures ActiveFrequencies(fs[..i + 1], shift, pow2) == ActiveFrequencies(fs[..i], shift, pow2) + EntryTone(fs[i], shift, pow2)
  {
    assert fs[..i + 1][..i] == fs[..i];
  }

  /** The `forEach` of `drawChord`: collects, in fingering order, the frequency
      of every entry that is not muted after the shift. */
  method CollectFrequencies(fs: seq<Finger>, semitoneShift: int, pow2: real -> real) returns (activeFrets: seq<real>)
    requires OnStrings(fs)
    ensures activeFrets == ActiveFrequencies(fs, semitoneShift, pow2)
  {
    activeFrets := [];
    for i := 0 to |fs|
      invariant activeFrets == ActiveFrequencies(fs[..i], semitoneShift, pow2)
    {
      var f := fs[i];
      ActiveFrequenciesStep(fs, i, semitoneShift, pow2);
      ghost var tone := EntryTone(f, semitoneShift, pow2);
      var displayFret := f.fret;
      if displayFret != MutedFret {
        displayFret := displayFret + semitoneShift;
      }
      if displayFret != MutedFret {
        var freq := StringFrequency(f.stringNumber, displayFret, pow2);
        assert displayFret == DisplayFret(f.fret, semitoneShift);
        activeFrets := activeFrets + [freq];
      } else {
        assert tone == [];
      }
    }
    assert fs[..|fs|] == fs;
  }

  /** `drawChord`: looks up the shape, names the chord and collects the
      frequency of every sounding entry, shifted to the root. */
  method DrawChord(st: AppState, pow2: real -> real)
    modifies st
    ensures (st.currentChordName, st.activeFrets)
      == Drawn(old(st.root), old(st.chordType), old(st.variationIndex), old(st.currentChordName), old(st.activeFrets), pow2)
    ensures st.root == old(st.root) && st.chordType == old(st.chordType)
    ensures st.variationIndex == old(st.variationIndex) && st.capo == old(st.capo)
  {
    var baseShape := GetGenericShape(st.chordType, st.variationIndex);
    if baseShape.None? {
      return;
    }
    var shape := baseShape.value;
    var root := st.root;
    var name := ChordName(root, shape.name, st.chordType);

    var rootIndex := NoteIndex(root);
    var cIndex := NoteIndex("C");
    var semitoneShift := rootIndex - cIndex;
    if semitoneShift < 0 {
      semitoneShift := semitoneShift + 12;
    }
    assert semitoneShift == SemitoneShift(root);
    var frets := CollectFrequencies(shape.fingering, semitoneShift, pow2);
    st.currentChordName, st.activeFrets := name, frets;
  }

  /** `render()`: redraws the chord and returns the text `updateChordInfo`
      shows. */
  method Render(st: AppState, pow2: real -> real) returns (shown: string)
    modifies st
    ensures (st.currentChordName, st.activeFrets)
      == Drawn(old(st.root), old(st.chordType), old(st.variationIndex), old(st.currentChordName), old(st.activeFrets), pow2)
    ensures st.root == old(st.root) && st.chordType == old(st.chordType)
    ensures st.variationIndex == old(st.variationIndex) && st.capo == old(st.capo)
    ensures shown == DisplayedName(st.currentChordName, st.capo)
  {
    DrawChord(st, pow2);
    shown := st.currentChordName + if st.capo != 0 then " (Capo " + IntToString(st.capo) + ")" else "";
  }

  // ---------------------------------------------------------------------
  // handleFretClick and updateChordInfo (Learn_Chords/js/core.js:249-261)
  // ---------------------------------------------------------------------

  /** The frequency played when fret `fret` of row `row` is clicked; row 0 is
      the top row, string 1 (high E), so the tuning index is `5 - row`. A row
      outside 0..5 has no tuning entry and `parseNote` would fail on it. */
  function FretClickFrequency(row: int, fret: int, pow2: real -> real): real
    requires 0 <= row < 6
  {
    OpenStringNoteParsed(row + 1);
    var parsed := ParseNote(StandardTuning[|StandardTuning| - 1 - row]).value;
    GetFrequency(parsed.note, parsed.octave, pow2) * pow2(fret as real / 12.0)
  }

  /** Clicking a fret sounds what `drawChord` collects for a dot drawn there:
      row `row` is string `row + 1`. */
  lemma FretClickMatchesDrawing(row: int, fret: int, pow2: real -> real)
    requires 0 <= row < 6 && fret != MutedFret
    ensures FretClickFrequency(row, fret, pow2) == StringFrequency(row + 1, fret, pow2)
    ensures FretClickFrequency(row, fret, pow2) in EntryTone(Finger(row + 1, fret, None, None, None), 0, pow2)
  {
    OpenStringNoteParsed(row + 1);
  }

  /** The displayed chord name: the capo is appended whenever it is not 0. */
  function DisplayedName(name: string, capo: int): (t: string)
    ensures name <= t
    ensures capo == 0 <==> t == name
    ensures capo != 0 ==> t == name + " (Capo " + IntToString(capo) + ")"
  {
    name + if capo != 0 then " (Capo " + IntToString(capo) + ")" else ""
  }

  /** For a capo on a fret, the suffix reads back: after the name come
      " (Capo ", the decimal digits of the capo and ")". */
  lemma CapoSuffixReadsBack(name: string, capo: int)
    requires capo > 0
    ensures var t := DisplayedName(name, capo);
      && |t| > |name| + 8 && t[..|name| + 7] == name + " (Capo " && t[|t| - 1] == ')'
      && AllDigits(t[|name| + 7..|t| - 1]) && DecimalValue(t[|name| + 7..|t| - 1]) == capo
  {
    var t := DisplayedName(name, capo);
    DecimalValueOfNatToString(capo);
    assert t[|name| + 7..|t| - 1] == NatToString(capo);
  }
}
