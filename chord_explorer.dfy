/**
 * The selection state of the monolithic chord explorer (Learn_Chords/script.js):
 * choosing a root and chord type, choosing a variation by its position in
 * the list, the capo and handedness settings, and the strum that plays the
 * current voicing.
 */
module ChordExplorer {
  import opened Options
  import opened Theory
  import opened Fingerings
  import opened ChordTable
  import ChordCore

  /** `CONSTANTS.STRING_FREQS`: open-string frequencies, string 1 (high E) first. */
  const StringFreqs: seq<real> := [329.63, 246.94, 196.00, 146.83, 110.00, 82.41]

  /** The delay added after each played note. */
  const StrumGap: real := 0.03

  /** A note handed to the synthesiser: its frequency and start time. */
  datatype Tone = Tone(freq: real, time: real)

  /** `STRING_FREQS[string - 1] * Math.pow(2, fret / 12)`. */
  function TableFrequency(f: Finger, pow2: real -> real): real
    requires 1 <= f.stringNumber <= 6
  {
    StringFreqs[f.stringNumber - 1] * pow2(f.fret as real / 12.0)
  }

  /** The entries that are played, in fingering order. */
  function Sounding(fs: seq<Finger>): (r: seq<Finger>)
    ensures |r| <= |fs|
    ensures forall k :: 0 <= k < |r| ==> !Muted(r[k]) && r[k] in fs
  {
    if fs == [] then []
    else
      var before := Sounding(fs[..|fs| - 1]);
      var f := fs[|fs| - 1];
      if Muted(f) then before else before + [f]
  }

  /** The tones `playCurrentChord` schedules for the entries `fs`, entry by
      entry: a muted entry adds nothing, any other adds a tone whose delay is
      the gap times the number of tones before it. */
  function Schedule(fs: seq<Finger>, now: real, pow2: real -> real): seq<Tone>
    requires ChordCore.OnStrings(fs)
  {
    if fs == [] then []
    else
      var before := Schedule(fs[..|fs| - 1], now, pow2);
      var f := fs[|fs| - 1];
      if Muted(f) then before
      else before + [Tone(TableFrequency(f, pow2), now + StrumGap * |before| as real)]
  }

  /** The strum: the k-th played entry sounds at its table frequency, k gaps
      after `now`; muted entries do not advance the delay. */
  lemma {:induction false} ScheduleIsStrum(fs: seq<Finger>, now: real, pow2: real -> real)
    requires ChordCore.OnStrings(fs)
    ensures |Schedule(fs, now, pow2)| == |Sounding(fs)|
    ensures forall k :: 0 <= k < |Sounding(fs)| ==>
      1 <= Sounding(fs)[k].stringNumber <= 6 &&
      Schedule(fs, now, pow2)[k] == Tone(TableFrequency(Sounding(fs)[k], pow2), now + StrumGap * k as real)
  {
    if fs != [] {
      var init := fs[..|fs| - 1];
      assert ChordCore.OnStrings(init) by {
        forall k | 0 <= k < |init| ensures 1 <= init[k].stringNumber <= 6 {
          assert init[k] == fs[k];
        }
      }
      ScheduleIsStrum(init, now, pow2);
      forall k | 0 <= k < |Sounding(fs)|
        ensures 1 <= Sounding(fs)[k].stringNumber <= 6
      {
        var j :| 0 <= j < |fs| && fs[j] == Sounding(fs)[k];
      }
    }
  }

  /** Notes start at `now` and follow one another strictly in time. */
  lemma ScheduleTimesIncrease(fs: seq<Finger>, now: real, pow2: real -> real)
    requires ChordCore.OnStrings(fs)
    ensures |Schedule(fs, now, pow2)| > 0 ==> Schedule(fs, now, pow2)[0].time == now
    ensures forall i, j :: 0 <= i < j < |Schedule(fs, now, pow2)| ==>
      Schedule(fs, now, pow2)[i].time < Schedule(fs, now, pow2)[j].time
  {
    ScheduleIsStrum(fs, now, pow2);
  }

  /** The monolithic player plays the entries the modular explorer draws: as
      many notes, in the same order, whose pitches are the drawn pitches
      before transposition. */
  lemma {:induction false} SameNotesAsDrawing(fs: seq<Finger>, shift: int)
    requires ChordCore.OnStrings(fs)
    ensures |Sounding(fs)| == |ChordCore.SoundingPitches(fs, shift)|
    ensures forall k :: 0 <= k < |Sounding(fs)| ==>
      1 <= Sounding(fs)[k].stringNumber <= 6 &&
      ChordCore.SoundingPitches(fs, shift)[k] == EntryPitch(Sounding(fs)[k]) + shift
  {
    if fs != [] {
      var init := fs[..|fs| - 1];
      assert ChordCore.OnStrings(init) by {
        forall k | 0 <= k < |init| ensures 1 <= init[k].stringNumber <= 6 {
          assert init[k] == fs[k];
        }
      }
      SameNotesAsDrawing(init, shift);
      forall k | 0 <= k < |Sounding(fs)|
        ensures 1 <= Sounding(fs)[k].stringNumber <= 6
      {
        var j :| 0 <= j < |fs| && fs[j] == Sounding(fs)[k];
      }
    }
  }

  /** A well-formed fingering lists strings 1 to 6 only. */
  lemma WellFormedOnStrings(fs: seq<Finger>)
    requires WellFormedFingering(fs)
    ensures ChordCore.OnStrings(fs)
  {
    forall k | 0 <= k < |fs| ensures 1 <= fs[k].stringNumber <= 6 {
      assert WellFormedEntry(fs[k], 6 - k);
    }
  }

  /** `keys[index]`: an index outside the list gives `undefined`, which as a
      property name is the string "undefined". */
  function SelectedKey(vs: Variations, index: int): string
  {
    if 0 <= index < |vs| then vs[index].0 else "undefined"
  }

  /** The voicing `selectChord` ends on: the first variation of the root and
      type, or none when either is missing or the type has no variations. */
  function Selected(data: Table, root: string, chordType: string): (r: Option<Voicing>)
    ensures r.None? <==> root !in data || chordType !in data[root] || data[root][chordType] == []
    ensures r.Some? ==>
      && root in data && chordType in data[root] && |data[root][chordType]| > 0
      && r.value == data[root][chordType][0].1
    ensures r.Some? && WellFormedTable(data) ==> WellFormedFingering(r.value.fingering)
    ensures r.Some? && GoodTable(data) ==> GoodVoicing(r.value, NoteIndex(root))
  {
    if root in data && chordType in data[root] && |data[root][chordType]| > 0 then
      Some(data[root][chordType][0].1)
    else
      None
  }

  /** On the table the program loads: C major opens on "C Open", C minor on
      "Cm Open" with its string-2 label as written, and G major on "G Open". */
  lemma SelectedOnLoadedTable()
    ensures WellFormedTable(WithPlaceholders(ChordDataAsWritten, Notes))
    ensures var loaded := WithPlaceholders(ChordDataAsWritten, Notes);
      && Selected(loaded, "C", "major") == Some(CMajor[0].1)
      && Selected(loaded, "C", "minor") == Some(CMinorOpenAsWritten)
      && Selected(loaded, "G", "major") == Some(GMajor[0].1)
  {
    LoadedTable();
  }

  /** On the loaded table C dominant seventh, G minor and every placeholder
      root select nothing. */
  lemma NothingSelectedOnLoadedTable()
    ensures WellFormedTable(WithPlaceholders(ChordDataAsWritten, Notes))
    ensures var loaded := WithPlaceholders(ChordDataAsWritten, Notes);
      && Selected(loaded, "C", "7").None?
      && Selected(loaded, "G", "minor").None?
      && Selected(loaded, "D", "major").None?
  {
    LoadedTable();
    LoadedExamples();
  }

  /** The explorer's `state` object. */
  class ExplorerState {
    var root: string
    var chordType: string
    var variationIndex: int
    var capo: int
    var leftHanded: bool
    var currentChordData: Option<Voicing>

    constructor ()
      ensures root == "C" && chordType == "major" && variationIndex == 0 && capo == 0
      ensures !leftHanded && currentChordData.None?
    {
      root := "C";
      chordType := "major";
      variationIndex := 0;
      capo := 0;
      leftHanded := false;
      currentChordData := None;
    }

    /** The shown voicing, when there is one, is the variation at
        `variationIndex` of the selected root and type. */
    ghost predicate Valid(data: Table)
      reads this
    {
      currentChordData.Some? ==>
        && root in data && chordType in data[root]
        && 0 <= variationIndex < |data[root][chordType]|
        && currentChordData.value == data[root][chordType][variationIndex].1
    }

    /** `selectVariation(index)`: the index is stored first; with the root or
        type missing nothing else happens; otherwise the voicing under
        `keys[index]` becomes current, none when the index is out of range.
        `selectChord` calls it after changing the root and type, so it only
        needs a valid state when the root or type may be missing. */
    method SelectVariation(data: Table, index: int)
      requires WellFormedTable(data)
      requires Valid(data) || (root in data && chordType in data[root])
      modifies this
      ensures Valid(data)
      ensures variationIndex == index
      ensures root == old(root) && chordType == old(chordType) && capo == old(capo) && leftHanded == old(leftHanded)
      ensures root !in data || chordType !in data[root] ==> currentChordData == old(currentChordData)
      ensures root in data && chordType in data[root] ==>
        currentChordData == (if 0 <= index < |data[root][chordType]| then Some(data[root][chordType][index].1) else None)
    {
      variationIndex := index;
      if root !in data {
        return;
      }
      var rootData := data[root];
      if chordType !in rootData {
        return;
      }
      var typeData := rootData[chordType];
      var selectedKey := SelectedKey(typeData, index);
      currentChordData := Lookup(typeData, selectedKey);
      if 0 <= index < |typeData| {
        LookupAtIndex(typeData, index);
      }
    }

    /** `selectChord(root, type)`: sets both, then shows the first variation,
        or nothing when the root or type is missing or has no variations. */
    method SelectChord(data: Table, newRoot: string, newType: string)
      requires WellFormedTable(data)
      requires Valid(data)
      modifies this
      ensures Valid(data)
      ensures root == newRoot && chordType == newType
      ensures capo == old(capo) && leftHanded == old(leftHanded)
      ensures currentChordData == Selected(data, newRoot, newType)
      ensures variationIndex == if currentChordData.Some? then 0 else old(variationIndex)
    {
      root := newRoot;
      chordType := newType;
      if root !in data || chordType !in data[root] {
        currentChordData := None;
        return;
      }
      var variations := data[root][chordType];
      if |variations| > 0 {
        SelectVariation(data, 0);
      } else {
        currentChordData := None;
      }
    }

    /** A click on a root button keeps the chord type. */
    method OnRootClick(data: Table, note: string)
      requires WellFormedTable(data)
      requires Valid(data)
      modifies this
      ensures Valid(data)
      ensures root == note && chordType == old(chordType)
      ensures capo == old(capo) && leftHanded == old(leftHanded)
      ensures currentChordData == Selected(data, note, old(chordType))
    {
      SelectChord(data, note, chordType);
    }

    /** A change of the type selector keeps the root. */
    method OnTypeChange(data: Table, newType: string)
      requires WellFormedTable(data)
      requires Valid(data)
      modifies this
      ensures Valid(data)
      ensures root == old(root) && chordType == newType
      ensures capo == old(capo) && leftHanded == old(leftHanded)
      ensures currentChordData == Selected(data, old(root), newType)
    {
      SelectChord(data, root, newType);
    }

    /** `setHandedness(isLeft)` changes only the handedness. */
    method SetHandedness(isLeft: bool)
      modifies this
      ensures leftHanded == isLeft
      ensures root == old(root) && chordType == old(chordType) && variationIndex == old(variationIndex)
      ensures capo == old(capo) && currentChordData == old(currentChordData)
    {
      leftHanded := isLeft;
    }

    /** The capo slider stores its parsed value and nothing else. */
    method SetCapo(value: int)
      modifies this
      ensures capo == value
      ensures root == old(root) && chordType == old(chordType) && variationIndex == old(variationIndex)
      ensures leftHanded == old(leftHanded) && currentChordData == old(currentChordData)
    {
      capo := value;
    }

    /** `playCurrentChord()` at audio time `now`: nothing without a current
        voicing, otherwise one tone per played entry, `StrumGap` apart. */
    method PlayCurrentChord(data: Table, now: real, pow2: real -> real) returns (tones: seq<Tone>)
      requires WellFormedTable(data) && Valid(data)
      ensures currentChordData.None? ==> tones == []
      ensures currentChordData.Some? ==>
        ChordCore.OnStrings(currentChordData.value.fingering) &&
        tones == Schedule(currentChordData.value.fingering, now, pow2)
    {
      tones := [];
      if currentChordData.None? {
        return;
      }
      var fs := currentChordData.value.fingering;
      assert WellFormedFingering(data[root][chordType][variationIndex].1.fingering);
      WellFormedOnStrings(fs);
      tones := Strum(fs, now, pow2);
    }
  }

  /** The loop of `playCurrentChord`: each played entry is scheduled at its
      table frequency and the delay advances by `StrumGap` after it. */
  method Strum(fs: seq<Finger>, now: real, pow2: real -> real) returns (tones: seq<Tone>)
    requires ChordCore.OnStrings(fs)
    ensures tones == Schedule(fs, now, pow2)
  {
    tones := [];
    var delay := 0.0;
    for i := 0 to |fs|
      invariant tones == Schedule(fs[..i], now, pow2)
      invariant delay == StrumGap * |tones| as real
    {
      assert fs[..i + 1][..i] == fs[..i];
      var f := fs[i];
      assert fs[..i + 1][i] == f;
      if f.fret != MutedFret {
        var stringIdx := f.stringNumber - 1;
        var openFreq := StringFreqs[stringIdx];
        var freq := openFreq * pow2(f.fret as real / 12.0);
        tones := tones + [Tone(freq, now + delay)];
        delay := delay + StrumGap;
      }
    }
    assert fs[..|fs|] == fs;
  }
}
