/**
 * The chord table of the monolithic chord explorer (Learn_Chords/data.js):
 * voicings stored per root and chord type under named keys, and the load-time
 * loop that gives every other root of `NOTES` an empty placeholder entry.
 */
module ChordTable {
  import opened Options
  import opened Theory
  import opened Fingerings

  /** One stored voicing: its display name, difficulty and six entries. */
  datatype Voicing = Voicing(name: string, difficulty: string, fingering: seq<Finger>)

  /** The variations of one chord type, as (key, voicing) pairs in the order
      `Object.keys` lists them. */
  type Variations = seq<(string, Voicing)>

  /** The chord types stored for one root. */
  type RootData = map<string, Variations>

  /** `CHORD_DATA`: root name to its chord types. */
  type Table = map<string, RootData>

  /** A fretted entry with its finger number. */
  function Fretted(s: int, fret: int, finger: int, interval: string): Finger
  {
    Finger(s, fret, Some(finger), Some(interval), None)
  }

  /** A barre entry laid from `barreStart` to `barreEnd`. */
  function Barred(s: int, fret: int, finger: int, interval: string, barreStart: int, barreEnd: int): Finger
  {
    Finger(s, fret, Some(finger), Some(interval), Some(BarreSpan(barreStart, barreEnd)))
  }

  const CMajor: Variations := [
    ("Open", Voicing("C Open", "Beginner",
      [MutedOn(6), Fretted(5, 3, 3, "R"), Fretted(4, 2, 2, "3"), Fretted(3, 0, 0, "5"), Fretted(2, 1, 1, "R"), Fretted(1, 0, 0, "3")])),
    ("Barre (Root 6)", Voicing("C Barre (8th Fret)", "Intermediate",
      [Barred(6, 8, 1, "R", 6, 1), Fretted(5, 10, 3, "5"), Fretted(4, 10, 4, "R"), Fretted(3, 9, 2, "3"), Fretted(2, 8, 1, "5"), Fretted(1, 8, 1, "R")])),
    ("Barre (Root 5)", Voicing("C Barre (3rd Fret)", "Intermediate",
      [MutedOn(6), Barred(5, 3, 1, "R", 5, 1), Fretted(4, 5, 2, "5"), Fretted(3, 5, 3, "R"), Fretted(2, 5, 4, "3"), Fretted(1, 3, 1, "5")]))
  ]

  /** The open C minor voicing with the label its second string carries in
      the source: "b3" on a string that sounds C. */
  const CMinorOpenAsWritten: Voicing := Voicing("Cm Open", "Intermediate",
    [MutedOn(6), Fretted(5, 3, 3, "R"), Fretted(4, 1, 1, "b3"), Fretted(3, 0, 0, "5"), Fretted(2, 1, 2, "b3"), Fretted(1, 3, 4, "5")])

  /** The same voicing with the second string labelled as the root it sounds. */
  const CMinorOpen: Voicing := Voicing("Cm Open", "Intermediate",
    [MutedOn(6), Fretted(5, 3, 3, "R"), Fretted(4, 1, 1, "b3"), Fretted(3, 0, 0, "5"), Fretted(2, 1, 2, "R"), Fretted(1, 3, 4, "5")])

  const CMinorBarre: Voicing := Voicing("Cm Barre (3rd Fret)", "Intermediate",
    [MutedOn(6), Barred(5, 3, 1, "R", 5, 1), Fretted(4, 5, 3, "5"), Fretted(3, 5, 4, "R"), Fretted(2, 4, 2, "b3"), Fretted(1, 3, 1, "5")])

  const GMajor: Variations := [
    ("Open", Voicing("G Open", "Beginner",
      [Fretted(6, 3, 2, "R"), Fretted(5, 2, 1, "3"), Fretted(4, 0, 0, "5"), Fretted(3, 0, 0, "R"), Fretted(2, 0, 0, "3"), Fretted(1, 3, 3, "R")]))
  ]

  /** The literal table as the source writes it. */
  const ChordDataAsWritten: Table := map[
    "C" := map["major" := CMajor, "minor" := [("Open (Rare)", CMinorOpenAsWritten), ("Barre (Root 5)", CMinorBarre)]],
    "G" := map["major" := GMajor]]

  /** The literal table with the open C minor label corrected. It is the
      corrected half of the mislabelling finding; the library loads the table
      as written. */
  const ChordData: Table := map[
    "C" := map["major" := CMajor, "minor" := [("Open (Rare)", CMinorOpen), ("Barre (Root 5)", CMinorBarre)]],
    "G" := map["major" := GMajor]]

  /** A voicing whose six entries list strings 6 down to 1 and are labelled
      with the intervals they sound above the root at `rootIndex`. */
  predicate GoodVoicing(v: Voicing, rootIndex: int)
  {
    WellFormedFingering(v.fingering) && LabelsMatchPitches(v.fingering, rootIndex)
  }

  /** Object keys are distinct. */
  predicate DistinctKeys(vs: Variations)
  {
    forall i, j :: 0 <= i < j < |vs| ==> vs[i].0 != vs[j].0
  }

  /** Every variation of every type of every root is good for that root, the
      keys of each type are distinct and none is the key `"undefined"` that an
      out-of-range index looks up. */
  predicate GoodTable(data: Table)
  {
    forall root | root in data :: forall chordType | chordType in data[root] ::
      var vs := data[root][chordType];
      && DistinctKeys(vs)
      && (forall i :: 0 <= i < |vs| ==> vs[i].0 != "undefined" && GoodVoicing(vs[i].1, NoteIndex(root)))
  }

  /** The structure the explorer relies on, labels aside: the keys of each
      type are distinct and none is `"undefined"`, and every voicing lists
      strings 6 down to 1 with well-formed entries. */
  predicate WellFormedTable(data: Table)
  {
    forall root | root in data :: forall chordType | chordType in data[root] ::
      var vs := data[root][chordType];
      && DistinctKeys(vs)
      && (forall i :: 0 <= i < |vs| ==> vs[i].0 != "undefined" && WellFormedFingering(vs[i].1.fingering))
  }

  /** A good table is well formed. */
  lemma GoodTableIsWellFormed(data: Table)
    requires GoodTable(data)
    ensures WellFormedTable(data)
  {
  }

  /** The value of property `key` of a variations object. */
  function Lookup(vs: Variations, key: string): (r: Option<Voicing>)
    ensures r.None? <==> forall i :: 0 <= i < |vs| ==> vs[i].0 != key
    ensures r.Some? ==> exists i :: 0 <= i < |vs| && vs[i] == (key, r.value)
  {
    if vs == [] then None
    else if vs[0].0 == key then Some(vs[0].1)
    else Lookup(vs[1..], key)
  }

  /** With distinct keys, looking up the key at position `i` finds the
      voicing at position `i`. */
  lemma {:induction false} LookupAtIndex(vs: Variations, i: int)
    requires DistinctKeys(vs) && 0 <= i < |vs|
    ensures Lookup(vs, vs[i].0) == Some(vs[i].1)
  {
    if i > 0 {
      assert vs[0].0 != vs[i].0;
      assert DistinctKeys(vs[1..]) by {
        forall a, b | 0 <= a < b < |vs[1..]|
          ensures vs[1..][a].0 != vs[1..][b].0
        {
          assert vs[1..][a] == vs[a + 1] && vs[1..][b] == vs[b + 1];
        }
      }
      LookupAtIndex(vs[1..], i - 1);
      assert vs[1..][i - 1] == vs[i];
    }
  }

  /** The one misplaced label: the second string of the open C minor voicing
      (fret 1 on the B string) sounds C, the root, yet is labelled "b3". */
  lemma OpenMinorSecondStringMislabelled()
    ensures ChordDataAsWritten["C"]["minor"][0].1 == CMinorOpenAsWritten
    ensures CMinorOpenAsWritten.fingering[4].interval == Some("b3")
    ensures (EntryPitch(CMinorOpenAsWritten.fingering[4]) + AIndex - NoteIndex("C")) % 12 == 0
    ensures !SoundsItsInterval(CMinorOpenAsWritten.fingering[4], NoteIndex("C"))
    ensures !GoodVoicing(CMinorOpenAsWritten, NoteIndex("C"))
  {
    OpenStringPitches();
    IntervalsBijective();
    assert IntervalNames[3] == "b3";
    assert NoteIndex("C") == 0;
    var f := CMinorOpenAsWritten.fingering[4];
    assert EntryPitch(f) == -9;
  }

  /** The corrected table differs from the literal one only in that label. */
  lemma CorrectionIsOneLabel()
    ensures ChordData.Keys == ChordDataAsWritten.Keys
    ensures ChordData["G"] == ChordDataAsWritten["G"]
    ensures ChordData["C"]["major"] == ChordDataAsWritten["C"]["major"]
    ensures ChordData["C"]["minor"][1] == ChordDataAsWritten["C"]["minor"][1]
    ensures CMinorOpen.fingering == CMinorOpenAsWritten.fingering[4 := CMinorOpenAsWritten.fingering[4].(interval := Some("R"))]
  {
  }

  lemma COpenGood()
    ensures GoodVoicing(CMajor[0].1, 0)
  {
    OpenStringPitches();
    UsedIntervals();
    var fs := CMajor[0].1.fingering;
    MutedOnGood(6, 0);
    SoundingEntryGood(fs[1], 5, 0, 0);
    SoundingEntryGood(fs[2], 4, 4, 0);
    SoundingEntryGood(fs[3], 3, 7, 0);
    SoundingEntryGood(fs[4], 2, 0, 0);
    SoundingEntryGood(fs[5], 1, 4, 0);
    EntriesGood(fs, 0);
  }

  lemma CBarreSixGood()
    ensures GoodVoicing(CMajor[1].1, 0)
  {
    OpenStringPitches();
    UsedIntervals();
    var fs := CMajor[1].1.fingering;
    SoundingEntryGood(fs[0], 6, 0, 0);
    SoundingEntryGood(fs[1], 5, 7, 0);
    SoundingEntryGood(fs[2], 4, 0, 0);
    SoundingEntryGood(fs[3], 3, 4, 0);
    SoundingEntryGood(fs[4], 2, 7, 0);
    SoundingEntryGood(fs[5], 1, 0, 0);
    EntriesGood(fs, 0);
  }

  lemma CBarreFiveGood()
    ensures GoodVoicing(CMajor[2].1, 0)
  {
    OpenStringPitches();
    UsedIntervals();
    var fs := CMajor[2].1.fingering;
    MutedOnGood(6, 0);
    SoundingEntryGood(fs[1], 5, 0, 0);
    SoundingEntryGood(fs[2], 4, 7, 0);
    SoundingEntryGood(fs[3], 3, 0, 0);
    SoundingEntryGood(fs[4], 2, 4, 0);
    SoundingEntryGood(fs[5], 1, 7, 0);
    EntriesGood(fs, 0);
  }

  lemma CMinorOpenGood()
    ensures GoodVoicing(CMinorOpen, 0)
  {
    OpenStringPitches();
    UsedIntervals();
    var fs := CMinorOpen.fingering;
    MutedOnGood(6, 0);
    SoundingEntryGood(fs[1], 5, 0, 0);
    SoundingEntryGood(fs[2], 4, 3, 0);
    SoundingEntryGood(fs[3], 3, 7, 0);
    SoundingEntryGood(fs[4], 2, 0, 0);
    SoundingEntryGood(fs[5], 1, 7, 0);
    EntriesGood(fs, 0);
  }

  lemma CMinorBarreGood()
    ensures GoodVoicing(CMinorBarre, 0)
  {
    OpenStringPitches();
    UsedIntervals();
    var fs := CMinorBarre.fingering;
    MutedOnGood(6, 0);
    SoundingEntryGood(fs[1], 5, 0, 0);
    SoundingEntryGood(fs[2], 4, 7, 0);
    SoundingEntryGood(fs[3], 3, 0, 0);
    SoundingEntryGood(fs[4], 2, 3, 0);
    SoundingEntryGood(fs[5], 1, 7, 0);
    EntriesGood(fs, 0);
  }

  lemma GOpenGood()
    ensures GoodVoicing(GMajor[0].1, 7)
  {
    OpenStringPitches();
    UsedIntervals();
    var fs := GMajor[0].1.fingering;
    SoundingEntryGood(fs[0], 6, 0, 7);
    SoundingEntryGood(fs[1], 5, 4, 7);
    SoundingEntryGood(fs[2], 4, 7, 7);
    SoundingEntryGood(fs[3], 3, 0, 7);
    SoundingEntryGood(fs[4], 2, 4, 7);
    SoundingEntryGood(fs[5], 1, 0, 7);
    EntriesGood(fs, 7);
  }

  /** The open C minor voicing as written is well formed: its wrong label is
      still an interval name. */
  lemma CMinorOpenAsWrittenWellFormed()
    ensures WellFormedFingering(CMinorOpenAsWritten.fingering)
  {
    CMinorOpenGood();
    UsedIntervals();
    assert forall k :: 0 <= k < 6 && k != 4 ==> CMinorOpenAsWritten.fingering[k] == CMinorOpen.fingering[k];
  }

  /** The C entry as written: distinct keys, none `"undefined"`, every voicing
      well formed, and every voicing good for C except the open minor one. */
  lemma CEntryGood()
    ensures forall chordType | chordType in ChordDataAsWritten["C"] ::
      var vs := ChordDataAsWritten["C"][chordType];
      && DistinctKeys(vs)
      && (forall i :: 0 <= i < |vs| ==> vs[i].0 != "undefined" && WellFormedFingering(vs[i].1.fingering))
      && (forall i :: 0 <= i < |vs| ==> GoodVoicing(vs[i].1, 0) || (chordType == "minor" && i == 0))
  {
    COpenGood();
    CBarreSixGood();
    CBarreFiveGood();
    CMinorOpenAsWrittenWellFormed();
    CMinorBarreGood();
  }

  /** The table as written is well formed, and every voicing in it is good
      for its root except the open C minor one. */
  lemma ChordDataAsWrittenShape()
    ensures WellFormedTable(ChordDataAsWritten)
    ensures forall root | root in ChordDataAsWritten :: forall chordType | chordType in ChordDataAsWritten[root] ::
      var vs := ChordDataAsWritten[root][chordType];
      forall i :: 0 <= i < |vs| ==> GoodVoicing(vs[i].1, NoteIndex(root)) || (root == "C" && chordType == "minor" && i == 0)
  {
    assert NoteIndex("C") == 0 && NoteIndex("G") == 7;
    CEntryGood();
    GOpenGood();
  }

  /** With the label corrected, every voicing of the C entry is good for C. */
  lemma CorrectedCEntryGood()
    ensures forall chordType | chordType in ChordData["C"] ::
      var vs := ChordData["C"][chordType];
      DistinctKeys(vs) && forall i :: 0 <= i < |vs| ==> vs[i].0 != "undefined" && GoodVoicing(vs[i].1, 0)
  {
    COpenGood();
    CBarreSixGood();
    CBarreFiveGood();
    CMinorOpenGood();
    CMinorBarreGood();
  }

  /** The corrected table: every voicing is well formed and every label names
      the interval the string sounds above the root it is stored under. */
  lemma ChordDataGood()
    ensures GoodTable(ChordData)
  {
    assert NoteIndex("C") == 0 && NoteIndex("G") == 7;
    CorrectedCEntryGood();
    GOpenGood();
  }

  /** The entry the loop gives a root that has none: the four chord types of
      the interface, each with no variations. */
  const Placeholder: RootData := map["major" := [], "minor" := [], "7" := [], "maj7" := []]

  /** The table after the loop has visited `notes`, one root at a time. */
  function WithPlaceholders(data: Table, notes: seq<string>): Table
  {
    if notes == [] then data
    else
      var before := WithPlaceholders(data, notes[..|notes| - 1]);
      var note := notes[|notes| - 1];
      if note in before then before else before[note := Placeholder]
  }

  /** The loop's effect in one step: every listed root gains an entry, roots
      already present keep theirs, and the new ones are placeholders. */
  lemma {:induction false} WithPlaceholdersContents(data: Table, notes: seq<string>)
    ensures WithPlaceholders(data, notes).Keys == data.Keys + set n | n in notes
    ensures forall root | root in data :: WithPlaceholders(data, notes)[root] == data[root]
    ensures forall root | root in notes && root !in data :: WithPlaceholders(data, notes)[root] == Placeholder
  {
    if notes != [] {
      var prefix := notes[..|notes| - 1];
      WithPlaceholdersContents(data, prefix);
      assert (set n | n in notes) == (set n | n in prefix) + {notes[|notes| - 1]} by {
        assert notes == prefix + [notes[|notes| - 1]];
      }
      forall root | root in notes && root !in data
        ensures WithPlaceholders(data, notes)[root] == Placeholder
      {
        if root != notes[|notes| - 1] {
          assert root in prefix by {
            var i :| 0 <= i < |notes| && notes[i] == root;
            assert prefix[i] == root;
          }
        }
      }
    }
  }

  /** Running the loop a second time changes nothing. */
  lemma WithPlaceholdersIdempotent(data: Table, notes: seq<string>)
    ensures WithPlaceholders(WithPlaceholders(data, notes), notes) == WithPlaceholders(data, notes)
  {
    var once := WithPlaceholders(data, notes);
    WithPlaceholdersContents(data, notes);
    WithPlaceholdersContents(once, notes);
  }

  /** A placeholder holds no variations, so it keeps a table well formed. */
  lemma WithPlaceholdersWellFormed(data: Table, notes: seq<string>)
    requires WellFormedTable(data)
    ensures WellFormedTable(WithPlaceholders(data, notes))
  {
    WithPlaceholdersContents(data, notes);
  }

  /** Nor does it spoil a good table. */
  lemma WithPlaceholdersGood(data: Table, notes: seq<string>)
    requires GoodTable(data)
    ensures GoodTable(WithPlaceholders(data, notes))
  {
    WithPlaceholdersContents(data, notes);
  }

  /** The literal table's roots are names of `NOTES`. */
  lemma ChordDataRoots()
    ensures ChordDataAsWritten.Keys == {"C", "G"}
    ensures "C" in Notes && "G" in Notes && "D" in Notes
  {
    assert Notes[0] == "C" && Notes[7] == "G" && Notes[2] == "D";
  }

  /** After loading, every name of `NOTES` is a root of the table, C and G
      keep their voicings and every other root offers the four types with no
      variations. */
  lemma LoadedTable()
    ensures WithPlaceholders(ChordDataAsWritten, Notes).Keys == set n | n in Notes
    ensures WithPlaceholders(ChordDataAsWritten, Notes)["C"] == ChordDataAsWritten["C"]
    ensures WithPlaceholders(ChordDataAsWritten, Notes)["G"] == ChordDataAsWritten["G"]
    ensures forall root | root in Notes && root != "C" && root != "G" :: WithPlaceholders(ChordDataAsWritten, Notes)[root] == Placeholder
    ensures WellFormedTable(WithPlaceholders(ChordDataAsWritten, Notes))
  {
    WithPlaceholdersContents(ChordDataAsWritten, Notes);
    ChordDataRoots();
    ChordDataAsWrittenShape();
    WithPlaceholdersWellFormed(ChordDataAsWritten, Notes);
  }

  /** The loaded table is not good: its open C minor voicing carries the
      wrong label. With the label corrected it would be. */
  lemma LoadedTableMislabelled()
    ensures !GoodTable(WithPlaceholders(ChordDataAsWritten, Notes))
    ensures GoodTable(WithPlaceholders(ChordData, Notes))
  {
    var loaded: Table := WithPlaceholders(ChordDataAsWritten, Notes);
    ChordDataRoots();
    WithPlaceholdersContents(ChordDataAsWritten, Notes);
    assert loaded["C"] == ChordDataAsWritten["C"];
    OpenMinorSecondStringMislabelled();
    ChordDataGood();
    WithPlaceholdersGood(ChordData, Notes);
  }

  /** So C offers no "7" variations at all, while D's "major" list is empty. */
  lemma LoadedExamples()
    ensures "C" in WithPlaceholders(ChordDataAsWritten, Notes) && "7" !in WithPlaceholders(ChordDataAsWritten, Notes)["C"]
    ensures "D" in WithPlaceholders(ChordDataAsWritten, Notes) && "major" in WithPlaceholders(ChordDataAsWritten, Notes)["D"]
    ensures WithPlaceholders(ChordDataAsWritten, Notes)["D"]["major"] == []
  {
    var loaded: Table := WithPlaceholders(ChordDataAsWritten, Notes);
    ChordDataRoots();
    WithPlaceholdersContents(ChordDataAsWritten, Notes);
    assert loaded["C"] == ChordDataAsWritten["C"];
    assert "D" !in ChordDataAsWritten;
    assert loaded["D"] == Placeholder;
  }

  /** `CHORD_DATA` as a mutable object: the literal, then the load-time loop. */
  class ChordLibrary {
    var data: Table

    constructor ()
      ensures data == ChordDataAsWritten
    {
      data := ChordDataAsWritten;
    }

    /** `NOTES.forEach(note => { if (!CHORD_DATA[note]) CHORD_DATA[note] = {...} })`. */
    method FillPlaceholders()
      modifies this
      ensures data == WithPlaceholders(old(data), Notes)
    {
      ghost var start := data;
      for i := 0 to |Notes|
        invariant data == WithPlaceholders(start, Notes[..i])
      {
        assert Notes[..i + 1][..i] == Notes[..i];
        if Notes[i] !in data {
          data := data[Notes[i] := Placeholder];
        }
      }
      assert Notes[..|Notes|] == Notes;
    }
  }

  /** Building the library and running the loop yields the loaded table. */
  method Load() returns (library: ChordLibrary)
    ensures fresh(library)
    ensures library.data == WithPlaceholders(ChordDataAsWritten, Notes)
  {
    library := new ChordLibrary();
    library.FillPlaceholders();
  }
}
