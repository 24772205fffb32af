/**
 * The shape library of the modular chord explorer (Learn_Chords/js/data.js):
 * every chord type is stored once, as C shapes, and other roots are obtained
 * by transposing them (see ChordCore).
 */
module ChordShapes {
  import opened Options
  import opened Theory
  import opened Fingerings

  /** A named shape: its fingering lists strings 6 down to 1. */
  datatype Shape = Shape(name: string, fingering: seq<Finger>)

  function Fret(s: int, fret: int, interval: string): Finger { Finger(s, fret, None, Some(interval), None) }

  /** A barre laid from string `s` across to string 1. */
  function Barre(s: int, fret: int, interval: string): Finger
  {
    Finger(s, fret, None, Some(interval), Some(BarreSpan(s, 1)))
  }

  const MajorShapes: seq<Shape> := [
    Shape("Open C", [MutedOn(6), Fret(5, 3, "R"), Fret(4, 2, "3"), Fret(3, 0, "5"), Fret(2, 1, "R"), Fret(1, 0, "3")]),
    Shape("Barre (A Shape)", [MutedOn(6), Barre(5, 3, "R"), Fret(4, 5, "5"), Fret(3, 5, "R"), Fret(2, 5, "3"), Fret(1, 3, "5")]),
    Shape("Barre (E Shape)", [Barre(6, 8, "R"), Fret(5, 10, "5"), Fret(4, 10, "R"), Fret(3, 9, "3"), Fret(2, 8, "5"), Fret(1, 8, "R")])
  ]

  const MinorShapes: seq<Shape> := [
    Shape("Cm Barre (A Shape)", [MutedOn(6), Barre(5, 3, "R"), Fret(4, 5, "5"), Fret(3, 5, "R"), Fret(2, 4, "b3"), Fret(1, 3, "5")]),
    Shape("Cm Barre (E Shape)", [Barre(6, 8, "R"), Fret(5, 10, "5"), Fret(4, 10, "R"), Fret(3, 8, "b3"), Fret(2, 8, "5"), Fret(1, 8, "R")])
  ]

  const DominantSeventhShapes: seq<Shape> := [
    Shape("C7 Open", [MutedOn(6), Fret(5, 3, "R"), Fret(4, 2, "3"), Fret(3, 3, "b7"), Fret(2, 1, "R"), Fret(1, 0, "3")])
  ]

  /** `CHORD_DATA["C"]`: the C shapes of each chord type, in listed order. */
  const CShapes: map<string, seq<Shape>> := map["major" := MajorShapes, "minor" := MinorShapes, "7" := DominantSeventhShapes]

  /** `CHORD_DATA`: only the reference root C is stored. */
  const ChordData: map<string, map<string, seq<Shape>>> := map["C" := CShapes]

  /** Index of C in `Notes`: the root every stored shape is written for. */
  const ReferenceRoot: int := 0

  /** A shape of the library: six well-formed entries whose interval labels
      are the intervals they sound above C. */
  predicate GoodShape(sh: Shape)
  {
    WellFormedFingering(sh.fingering) && LabelsMatchPitches(sh.fingering, ReferenceRoot)
  }

  lemma OpenCGood()
    ensures GoodShape(MajorShapes[0])
  {
    OpenStringPitches();
    UsedIntervals();
    var fs := MajorShapes[0].fingering;
    MutedOnGood(6, ReferenceRoot);
    SoundingEntryGood(fs[1], 5, 0, ReferenceRoot);
    SoundingEntryGood(fs[2], 4, 4, ReferenceRoot);
    SoundingEntryGood(fs[3], 3, 7, ReferenceRoot);
    SoundingEntryGood(fs[4], 2, 0, ReferenceRoot);
    SoundingEntryGood(fs[5], 1, 4, ReferenceRoot);
    EntriesGood(MajorShapes[0].fingering, ReferenceRoot);
  }

  lemma MajorABarreGood()
    ensures GoodShape(MajorShapes[1])
  {
    OpenStringPitches();
    UsedIntervals();
    var fs := MajorShapes[1].fingering;
    MutedOnGood(6, ReferenceRoot);
    SoundingEntryGood(fs[1], 5, 0, ReferenceRoot);
    SoundingEntryGood(fs[2], 4, 7, ReferenceRoot);
    SoundingEntryGood(fs[3], 3, 0, ReferenceRoot);
    SoundingEntryGood(fs[4], 2, 4, ReferenceRoot);
    SoundingEntryGood(fs[5], 1, 7, ReferenceRoot);
    EntriesGood(MajorShapes[1].fingering, ReferenceRoot);
  }

  lemma MajorEBarreGood()
    ensures GoodShape(MajorShapes[2])
  {
    OpenStringPitches();
    UsedIntervals();
    var fs := MajorShapes[2].fingering;
    SoundingEntryGood(fs[0], 6, 0, ReferenceRoot);
    SoundingEntryGood(fs[1], 5, 7, ReferenceRoot);
    SoundingEntryGood(fs[2], 4, 0, ReferenceRoot);
    SoundingEntryGood(fs[3], 3, 4, ReferenceRoot);
    SoundingEntryGood(fs[4], 2, 7, ReferenceRoot);
    SoundingEntryGood(fs[5], 1, 0, ReferenceRoot);
    EntriesGood(MajorShapes[2].fingering, ReferenceRoot);
  }

  /** Every entry of the three major shapes is well formed and sounds the interval it is
      labelled with above C. */
  lemma MajorShapesGood()
    ensures forall i :: 0 <= i < |MajorShapes| ==> GoodShape(MajorShapes[i])
  {
    OpenCGood();
    MajorABarreGood();
    MajorEBarreGood();
  }

  lemma MinorABarreGood()
    ensures GoodShape(MinorShapes[0])
  {
    OpenStringPitches();
    UsedIntervals();
    var fs := MinorShapes[0].fingering;
    MutedOnGood(6, ReferenceRoot);
    SoundingEntryGood(fs[1], 5, 0, ReferenceRoot);
    SoundingEntryGood(fs[2], 4, 7, ReferenceRoot);
    SoundingEntryGood(fs[3], 3, 0, ReferenceRoot);
    SoundingEntryGood(fs[4], 2, 3, ReferenceRoot);
    SoundingEntryGood(fs[5], 1, 7, ReferenceRoot);
    EntriesGood(MinorShapes[0].fingering, ReferenceRoot);
  }

  lemma MinorEBarreGood()
    ensures GoodShape(MinorShapes[1])
  {
    OpenStringPitches();
    UsedIntervals();
    var fs := MinorShapes[1].fingering;
    SoundingEntryGood(fs[0], 6, 0, ReferenceRoot);
    SoundingEntryGood(fs[1], 5, 7, ReferenceRoot);
    SoundingEntryGood(fs[2], 4, 0, ReferenceRoot);
    SoundingEntryGood(fs[3], 3, 3, ReferenceRoot);
    SoundingEntryGood(fs[4], 2, 7, ReferenceRoot);
    SoundingEntryGood(fs[5], 1, 0, ReferenceRoot);
    EntriesGood(MinorShapes[1].fingering, ReferenceRoot);
  }

  /** Every entry of the two minor shapes is well formed and sounds the interval it is
      labelled with above C. */
  lemma MinorShapesGood()
    ensures forall i :: 0 <= i < |MinorShapes| ==> GoodShape(MinorShapes[i])
  {
    MinorABarreGood();
    MinorEBarreGood();
  }

  lemma OpenC7Good()
    ensures GoodShape(DominantSeventhShapes[0])
  {
    OpenStringPitches();
    UsedIntervals();
    var fs := DominantSeventhShapes[0].fingering;
    MutedOnGood(6, ReferenceRoot);
    SoundingEntryGood(fs[1], 5, 0, ReferenceRoot);
    SoundingEntryGood(fs[2], 4, 4, ReferenceRoot);
    SoundingEntryGood(fs[3], 3, 10, ReferenceRoot);
    SoundingEntryGood(fs[4], 2, 0, ReferenceRoot);
    SoundingEntryGood(fs[5], 1, 4, ReferenceRoot);
    EntriesGood(DominantSeventhShapes[0].fingering, ReferenceRoot);
  }

  /** Every entry of the dominant seventh shape is well formed and sounds the interval it is
      labelled with above C. */
  lemma DominantSeventhShapesGood()
    ensures forall i :: 0 <= i < |DominantSeventhShapes| ==> GoodShape(DominantSeventhShapes[i])
  {
    OpenC7Good();
  }

  /** `getGenericShape(type, variationIndex)`: the stored C shape, or `null`
      when the type is not in the library or the index is outside its list.
      Whatever it returns is a good shape. */
  function GetGenericShape(chordType: string, variationIndex: int): (r: Option<Shape>)
    ensures r.Some? ==> GoodShape(r.value)
  {
    var library := ChordData["C"];
    if chordType in library && 0 <= variationIndex < |library[chordType]| then
      MajorShapesGood();
      MinorShapesGood();
      DominantSeventhShapesGood();
      Some(library[chordType][variationIndex])
    else
      None
  }

  /** A shape is found exactly when the type is stored and the index is
      within its list, and it is the stored one. */
  lemma GetGenericShapeFinds(chordType: string, variationIndex: int)
    ensures GetGenericShape(chordType, variationIndex).Some? <==> chordType in CShapes && 0 <= variationIndex < |CShapes[chordType]|
    ensures GetGenericShape(chordType, variationIndex).Some? ==> GetGenericShape(chordType, variationIndex).value == CShapes[chordType][variationIndex]
  {
  }

  /** The library holds three major shapes, two minor and one dominant
      seventh, and nothing for the other types the interface offers. */
  lemma LibraryContents()
    ensures CShapes.Keys == {"major", "minor", "7"}
    ensures |CShapes["major"]| == 3 && |CShapes["minor"]| == 2 && |CShapes["7"]| == 1
    ensures GetGenericShape("maj7", 0).None?
    ensures GetGenericShape("major", 3).None? && GetGenericShape("major", -1).None?
  {
  }
}
