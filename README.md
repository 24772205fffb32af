# Music widgets: tuner, chord explorer and circle-of-fifths wheel, in Dafny

This project models the decision logic of three browser music widgets and proves properties about it.

- **The guitar tuner** (`tuner/script.js`) works in stages:
  - a noise gate and edge trim on a 4096-sample frame;
  - the autocorrelation over lags 30..799;
  - the first-peak / highest-peak lag choice with parabolic refinement;
  - the string matcher (window first, then nearest in Hz);
  - the stability state machine that rings the "in tune" chime once per in-tune span;
  - the string-button reset and the IN TUNE / FLAT / SHARP indicator.
- **The chord explorer** comes in two versions:
  - The modular one (`Learn_Chords/js/`) covers note arithmetic and note parsing, the "C" shape library and its lookup, and transposition of a shape to another root. It also covers the list of sounding frequencies, the displayed chord name, the search-box parser and the handlers that update the application state.
  - The monolithic one (`Learn_Chords/script.js` with `Learn_Chords/data.js`) covers the chord table and its load-time placeholder loop, the chord and variation selection state, and the strum schedule of the play button.
- **The circle-of-fifths wheel** (`music-wheel/script.js`) covers:
  - the slot-to-key mapping, the ring hit test and the slot under the cursor;
  - the labels and tooltip placement;
  - the diagram decisions of `renderChordSVG`: start fret, barre and marks;
  - drag wrapping, scroll and snap-to-30°.

  Its older copy (`script.js`) is written out a second time in module `LegacyWheel`. Each of its pieces is proved to decide what the newer version decides.

Each module models one source file or one closely related group of them:

- `Tuner` (tuner.dfy)
- `Theory` (theory.dfy)
- `Fingerings` (fingering.dfy)
- `ChordShapes` (chord_shapes.dfy)
- `ChordCore` (chord_core.dfy)
- `ChordEvents` (chord_events.dfy)
- `ChordTable` (chord_table.dfy)
- `ChordExplorer` (chord_explorer.dfy)
- `Wheel` (music_wheel.dfy)
- `LegacyWheel` (legacy_wheel.dfy)

`JsSemantics` (js_semantics.dfy) holds the JavaScript operators the models rely on:

- truncating `%`;
- `Math.round`;
- `toUpperCase` on ASCII letters;
- `indexOf` and `includes`;
- decimal digit strings.

Imperative code is modelled as imperative Dafny:

- `autoCorrelate` works on an `array<real>`, with its loops and their invariants.
- `processPitch` is a method of the class `Tuner.TunerSession`.
- `drawChord` writes the fields of `ChordCore.AppState`.
- The placeholder loop fills `ChordTable.ChordLibrary.data` in place.
- Selection state is the class `ChordExplorer.ExplorerState`.
- The wheel's drag and snap handlers are methods of `Wheel.WheelState`.

Each of these methods is tied in its `ensures` to a specification function. Lemmas prove that function's properties.

Where the code does something other than what a reader of its names and comments would expect, the model follows the code:

- The E2 and A2 windows share 95 Hz (`Tuner.WindowsOverlapOnlyAt95`). The two windows are not disjoint, and 95 Hz goes to E2.
- The parabolic refinement has no zero-denominator guard. `Tuner.Estimate.Frequency` requires a non-zero denominator instead of substituting a zero shift. `Tuner.PeakShiftBounded` shows the guard is never needed at a first-peak choice.
- In manual mode, a frequency outside the window leaves all state untouched.
- Silence resets `timeInTune` but keeps `hasPlayedSound`. A manual-mode miss returns before either is touched, so it resets neither.
- The highest-correlation fallback only picks a lag whose correlation is above -1. The scan covers lags 30..799, not 30..800.

## Model

| member | source | states |
|---|---|---|
| Tuner.TargetsInsideWindows | tuner/script.js:34-41 | every string's target frequency lies strictly inside its own window |
| Tuner.WindowsOverlapOnlyAt95 | tuner/script.js:35-36 | two different windows share a frequency only for E2 and A2 at exactly 95 Hz |
| Tuner.GateIsRmsTest | tuner/script.js:343-346 | the gate `sqrt(sum/n) < 0.01` holds exactly when `sum < 0.0001 * n` |
| Tuner.SumOfSquares | tuner/script.js:344 | the accumulation loop returns the sum of squares of the frame |
| Tuner.TrimStart | tuner/script.js:352 | r1 is the first index below n/2 holding a sample quieter than 0.2: when some such sample exists, r1 holds one and no earlier index does; when none does, r1 is 0 |
| Tuner.TrimEnd | tuner/script.js:353 | r2 is the last index after n/2 holding a quiet sample: when some such sample exists, r2 holds one and no later index does; when none does, r2 is n - 1 |
| Tuner.Trimmed | tuner/script.js:354 | the slice `buf[r1..r2)` is non-empty (at least 2 samples) and shorter than the frame |
| Tuner.TrimBounds | tuner/script.js:350-353 | the two scans with `break` return exactly TrimStart and TrimEnd of the frame |
| Tuner.Correlations | tuner/script.js:357-366 | the array has 800 entries; entry L is the correlation sum for 30 <= L < 800 and 0 below 30 |
| Tuner.Correlate | tuner/script.js:357-366 | the nested loop over a zero-filled array yields exactly Correlations of the trimmed slice |
| Tuner.ChosenLagUnique | tuner/script.js:377-396 | the lag rule (first peak, else first maximum above -1, else -1) picks at most one lag |
| Tuner.PickPeak | tuner/script.js:374-396 | the two scans return the lag the rule picks: the first peak above 0.8·maxVal, else the first maximum above -1, else -1; any lag is in [30, 800) |
| Tuner.ShiftIsParabolaVertex | tuner/script.js:402 | the shift formula is the vertex -b/(2a) of the parabola through the three correlations |
| Tuner.PeakShiftBounded | tuner/script.js:399-403 | at a strict local maximum the denominator is non-zero, the shift is within (-0.5, 0.5) and the refined period is positive |
| Tuner.ChooseEstimate | tuner/script.js:398-405 | the result is no pitch exactly when the rule picks -1; otherwise it is the chosen lag with its neighbours, and c[800] reads as 0 |
| Tuner.AutoCorrelate | tuner/script.js:341-406 | a gated frame gives no pitch before any other work; otherwise the estimate is the one chosen for the correlations of the trimmed slice with threshold 0.8·Σx² |
| Tuner.DetectFromWindow | tuner/script.js:231-235 | from any string on, the scan returns the first string whose inclusive window holds the frequency, when one does |
| Tuner.DetectFromNearest | tuner/script.js:237-242 | with no window holding the frequency, the running minimum ends on the earliest string nearest in Hz |
| Tuner.DetectedStringSpec | tuner/script.js:226-257 | `DetectedString` (detectNote) returns the first window match; if there is none, it returns a string with the least distance in Hz, the earliest one on a tie |
| Tuner.DetectNote | tuner/script.js:226-257 | the loop with its early return always yields a string, the one DetectedStringSpec describes |
| Tuner.SharedBoundIsE2 | tuner/script.js:35-36 | 95 Hz is matched to E2 |
| Tuner.FiveHundredHertzIsE4 | tuner/script.js:238-256 | 500 Hz, outside every window, falls back to E4 |
| Tuner.MatchedString | tuner/script.js:173-196 | automatic mode always matches the detected string; manual mode matches the selected string iff the frequency lies in its window |
| Tuner.ManualModeIsStrict | tuner/script.js:184-195 | 100 Hz is rejected with E2 selected but matched to A2 in automatic mode |
| Tuner.MatchString | tuner/script.js:173-196 | the branch of processPitch computes MatchedString |
| Tuner.NeedleAngle | tuner/script.js:205-206 | the needle target is within [-45, 45], equals 0.9·cents inside ±50 and saturates outside |
| Tuner.Classify | tuner/script.js:281-307 | IN TUNE iff \|cents\| <= 5, FLAT iff below -5, SHARP iff above 5 |
| Tuner.AtMostOneChimeUntilDetuned | tuner/script.js:211-220 | under `Track` (the stability step), without a detuned reading the chime rings at most once, and never again once it has rung |
| Tuner.DetunedResets | tuner/script.js:217-219 | in `Track`, a reading beyond the tolerance clears both the time in tune and the latch |
| Tuner.InTuneTimeAccumulates | tuner/script.js:211-212 | while every reading is in tune, the time in tune grows by exactly the frame times |
| Tuner.FiveFramesChimeOnce | tuner/script.js:211-216 | five in-tune 100 ms frames from rest ring exactly once; four do not ring |
| Tuner.RemoveFirstDigit | tuner/script.js:120 | a name without digits is unchanged; otherwise exactly one character is removed |
| Tuner.RemoveFirstDigitAt | tuner/script.js:120 | the character removed is the first digit; everything before and after it is kept in order |
| Tuner.DisplayedStringNames | tuner/script.js:178 | the six strings display as E, A, D, G, B, E |
| Tuner.TunerSession.constructor | tuner/script.js:21-31 | automatic mode, zero time in tune, no chime played, needle at 0; the note name "--" and blank indicator are the page's initial text (see Left out) |
| Tuner.TunerSession.SelectString | tuner/script.js:111-131 | a string button sets the target and resets the time, the latch and the needle; the note name is shown without its octave |
| Tuner.TunerSession.ProcessPitch | tuner/script.js:158-222 | the time and latch follow the stability step of the frame. Silence zeroes the needle and the time. A manual miss changes nothing. A match sets the needle from `Cents` (1200·log2 of the ratio to the target), the indicator and the name. |
| Theory.NoteIndex | Learn_Chords/js/theory.js:11 | `NOTES.indexOf`: the position of the name, or -1 when absent |
| Theory.IndexOfNote | Learn_Chords/js/theory.js:1 | looking up the i-th name of NOTES gives back i |
| Theory.NotesDistinct | Learn_Chords/js/theory.js:1 | the twelve names are pairwise distinct |
| Theory.NoteIndexIsIndexOf | Learn_Chords/js/theory.js:11 | NoteIndex agrees with the generic first-occurrence indexOf |
| Theory.NotesAreUpperCase | Learn_Chords/js/theory.js:10 | upper-casing leaves every name of NOTES unchanged |
| Theory.IntervalsBijective | Learn_Chords/js/theory.js:3-5 | INTERVALS maps its twelve names one-to-one onto 0..11 |
| Theory.GetNoteFromOffset | Learn_Chords/js/theory.js:7-17 | "?" for an unknown upper-cased name, otherwise the name at the offset position |
| Theory.OffsetIndex | Learn_Chords/js/theory.js:14-15 | the truncating remainder lifted by 12 is the mathematical `(index + k) mod 12` |
| Theory.UnknownIffQuestionMark | Learn_Chords/js/theory.js:10-12 | the result is "?" iff the upper-cased name is not in NOTES; otherwise it is a name of NOTES |
| Theory.FlatNamesAreUnknown | Learn_Chords/js/theory.js:10-12 | "Db" upper-cases to "DB" and gives "?" |
| Theory.OffsetOfNote | Learn_Chords/js/theory.js:14-16 | from the j-th name, an offset of k lands on the name at `(j + k) mod 12` |
| Theory.OffsetComposes | Learn_Chords/js/theory.js:14-16 | offsetting by k and then by l is offsetting by k + l |
| Theory.OffsetRoundTrip | Learn_Chords/js/theory.js:14-16 | offsetting by k and then by any l with k + l a multiple of 12 (such as -k) returns the upper-cased start |
| Theory.OctavesAreIdentity | Learn_Chords/js/theory.js:14-16 | an offset by a multiple of 12 returns the upper-cased start |
| Theory.ParseNoteAcceptsPattern | Learn_Chords/js/theory.js:19-25 | `ParseNote` parses every string of the form `[A-G][#b]?-?\d+` to its note and integer octave |
| Theory.ParseNoteOnlyPattern | Learn_Chords/js/theory.js:19-25 | parseNote succeeds only on strings of that form, splitting them where the pattern does |
| Theory.ParseNoteRoundTrip | Learn_Chords/js/theory.js:19-25 | a note token followed by the decimal form of any octave parses back to that note and octave |
| Theory.ParseNoteExamples | Learn_Chords/js/theory.js:19-25 | "E2" → (E, 2), "C#4" → (C#, 4), "Db-1" → (Db, -1); "H2", "E" and "E2 " give null |
| Theory.SemitonesFromA4Properties | Learn_Chords/js/theory.js:32-40 | `SemitonesFromA4` is 0 for A4, +12 per octave, `(octave-4)·12 + i - 9` for the i-th name, and index -1 for an unknown name |
| Theory.OffsetMovesPitchClass | Learn_Chords/js/theory.js:14-16 | an offset of k moves the semitone distance by k modulo 12 |
| Theory.ConcertPitch | Learn_Chords/js/theory.js:42 | `GetFrequency` of A4 is 440 Hz |
| Theory.GetTuningOffsets | Learn_Chords/js/theory.js:45-49 | the result has the same length and applies parseNote at each position |
| Theory.StandardTuningParses | Learn_Chords/js/appState.js:11 | the standard tuning parses to E2, A2, D3, G3, B3, E4 |
| Fingerings.OpenStringNoteParsed | Learn_Chords/js/core.js:224-226 | data string s reads tuning entry `6 - s`, which parses to the open note of that string |
| Fingerings.OpenStringPitches | Learn_Chords/js/core.js:224-240 | the open strings 1..6 lie -5, -10, -14, -19, -24, -29 semitones from A4 |
| Fingerings.MutedOnGood | Learn_Chords/js/data.js:7 | a muted entry is well formed and claims no interval |
| Fingerings.SoundingEntryGood | Learn_Chords/js/data.js:8-12 | a fretted entry whose pitch is its interval above the root is well formed and sounds its label |
| Fingerings.EntriesGood | Learn_Chords/js/data.js:6-13 | six good entries for strings 6 down to 1 form a well-formed fingering whose labels match its pitches |
| Fingerings.UsedIntervals | Learn_Chords/js/theory.js:3-5 | the labels used by the shapes are R=0, b3=3, 3=4, 5=7, b7=10 |
| ChordShapes.OpenCGood | Learn_Chords/js/data.js:4-14 | "Open C" lists strings 6..1 once each, with frets of at least -1, no interval when muted, and labels matching its pitches over C |
| ChordShapes.MajorABarreGood | Learn_Chords/js/data.js:15-25 | the A-shape barre is good and its barre runs from its own string to string 1 |
| ChordShapes.MajorEBarreGood | Learn_Chords/js/data.js:26-36 | the E-shape barre is good and its barre runs from its own string to string 1 |
| ChordShapes.MajorShapesGood | Learn_Chords/js/data.js:3-37 | every major shape is good |
| ChordShapes.MinorABarreGood | Learn_Chords/js/data.js:39-49 | the minor A-shape barre is good |
| ChordShapes.MinorEBarreGood | Learn_Chords/js/data.js:50-60 | the minor E-shape barre is good |
| ChordShapes.MinorShapesGood | Learn_Chords/js/data.js:38-61 | every minor shape is good |
| ChordShapes.OpenC7Good | Learn_Chords/js/data.js:63-73 | "C7 Open" is good |
| ChordShapes.DominantSeventhShapesGood | Learn_Chords/js/data.js:62-74 | every "7" shape is good |
| ChordShapes.GetGenericShape | Learn_Chords/js/data.js:82-107 | whatever the lookup returns is a good shape |
| ChordShapes.GetGenericShapeFinds | Learn_Chords/js/data.js:103-106 | the lookup succeeds iff the type is a key of the C table and the index is in range, and then returns that entry |
| ChordShapes.LibraryContents | Learn_Chords/js/data.js:2-74 | the C table has 3 major, 2 minor and 1 "7" shapes and no "maj7"; "maj7", index 3 and index -1 give null |
| ChordCore.AppState.constructor | Learn_Chords/js/appState.js:3-22 | initial state: C, major, variation 0, capo 0, name "C Major", no frequencies |
| ChordCore.SemitoneShift | Learn_Chords/js/core.js:127-130 | the shift lies in [0, 12) |
| ChordCore.SemitoneShiftIsPosition | Learn_Chords/js/core.js:127-130 | the shift is the root's index in NOTES for a known root, and 11 for an unknown one |
| ChordCore.ShiftReachesRoot | Learn_Chords/js/core.js:127-130 | moving C up by the shift lands on the selected root |
| ChordCore.EntryToneIsPitch | Learn_Chords/js/core.js:157-162 | a muted entry adds no frequency; any other adds `440·2^(p/12)` for its open pitch plus fret plus shift |
| ChordCore.FrequenciesArePitches | Learn_Chords/js/core.js:154-246 | `ActiveFrequencies`, the collected frequencies, are in order and one per sounding entry, `440·2^(p/12)` of the shifted pitches |
| ChordCore.ShiftTransposes | Learn_Chords/js/core.js:157-162 | shifting adds the same number of semitones to every sounding pitch and keeps muted strings muted |
| ChordCore.TransposedLabelsHold | Learn_Chords/js/core.js:156-213 | after transposition to any root, every sounding entry's label is still its interval above the new root |
| ChordCore.UpToSpace | Learn_Chords/js/core.js:123 | the first space-free field of a string: a prefix without spaces, ended by a space or the end |
| ChordCore.ChordName | Learn_Chords/js/core.js:123 | the name starts with the root and a space; a shape name without a second word falls back to the type |
| ChordCore.ChordNameFromSecondWord | Learn_Chords/js/core.js:123 | when the shape name's first space is at i, the name is the root, a space and the word after i, or the type when that word is empty |
| ChordCore.OpenShapeNameOnD | Learn_Chords/js/core.js:123 | "Open C" drawn on D is named "D C" |
| ChordCore.SeventhShapeName | Learn_Chords/js/core.js:123 | "C7 Open" drawn on C is named "C Open" |
| ChordCore.CollectFrequencies | Learn_Chords/js/core.js:154-244 | the forEach loop yields exactly ActiveFrequencies of the shape |
| ChordCore.DrawChord | Learn_Chords/js/core.js:118-247 | name and frequencies become those of the drawn shape; nothing changes when there is no shape; the root, type, variation and capo are kept |
| ChordCore.Render | Learn_Chords/js/core.js:9-12 | draws the chord and returns the displayed name of the new state |
| ChordCore.FretClickMatchesDrawing | Learn_Chords/js/core.js:249-254 | `FretClickFrequency`: a click on row r at fret f plays the frequency drawChord gives string r+1 at fret f |
| ChordCore.DisplayedName | Learn_Chords/js/core.js:259-261 | the name is unchanged iff the capo is 0; any non-zero capo n appends " (Capo n)" with n in decimal |
| ChordCore.CapoSuffixReadsBack | Learn_Chords/js/core.js:259-261 | for a positive capo the displayed name is the name, " (Capo ", a string of digits whose decimal value is the capo, and ")" |
| ChordEvents.SearchMatch | Learn_Chords/js/events.js:12-13 | a match splits the input as the anchored case-insensitive pattern does, with the greedy root; no match means no split exists |
| ChordEvents.SearchRootIsUpperCase | Learn_Chords/js/events.js:14-18 | `SearchRoot` is the upper-cased group; the charAt branch changes nothing |
| ChordEvents.SuffixType | Learn_Chords/js/events.js:25-29 | minor iff "m" without "maj"; maj7 iff not minor and "maj7" occurs; 7 iff neither of those and "7" occurs; major iff none of the three tests applies |
| ChordEvents.SuffixTypeExamples | Learn_Chords/js/events.js:25-29 | "" → major, "m" and "m7" → minor, "7" → "7", "maj7" → maj7 |
| ChordEvents.SearchExamples | Learn_Chords/js/events.js:12-13 | "Cm" → (C, m), "Db" → (Db, ""), "Hm" and "" do not match |
| ChordEvents.SearchedFlatDrawsAsB | Learn_Chords/js/events.js:12-20 | searching "Db" sets root "DB", which is not a note, so the drawing is shifted by 11 semitones (to B) |
| ChordEvents.VariationItems | Learn_Chords/js/events.js:100-117 | nothing iff the type has no C shapes; otherwise one item per shape with its name and index, and only the selected index is active |
| ChordEvents.VariationItemsAgreeWithDrawing | Learn_Chords/js/events.js:107-110 | an item's index parses back to its position, and an item is active iff its shape is the one that gets drawn |
| ChordEvents.ShapesDistinct | Learn_Chords/js/data.js:2-74 | the shapes of each type are pairwise different |
| ChordEvents.OnSearch | Learn_Chords/js/events.js:10-33 | no match: state untouched. Otherwise root and type are set from the match, the chord is redrawn and the displayed name is returned |
| ChordEvents.OnRootClick | Learn_Chords/js/events.js:41-48 | sets only the root and redraws |
| ChordEvents.OnTypeChange | Learn_Chords/js/events.js:52-56 | sets only the type, redraws and rebuilds the variation list |
| ChordEvents.StaleVariationKeepsDrawing | Learn_Chords/js/events.js:52-56 | switching to minor with variation 2 selected draws nothing new and marks no item active |
| ChordEvents.OnVariationClick | Learn_Chords/js/events.js:60-69 | sets only the variation index and redraws |
| ChordEvents.OnCapoInput | Learn_Chords/js/events.js:73-77 | sets only the capo and redraws |
| ChordTable.Lookup | Learn_Chords/script.js:176-178 | `typeData[key]`: none iff no variation has the key, otherwise that variation's voicing |
| ChordTable.LookupAtIndex | Learn_Chords/script.js:176-178 | with distinct keys, looking up the i-th key gives the i-th voicing |
| ChordTable.OpenMinorSecondStringMislabelled | Learn_Chords/data.js:58 | the literal labels string 2 fret 1 of "Cm Open" as b3 although it sounds C, the root |
| ChordTable.CorrectionIsOneLabel | Learn_Chords/data.js:50-61 | the corrected table differs from the literal only in that one label |
| ChordTable.COpenGood | Learn_Chords/data.js:12-23 | "C Open" lists strings 6..1 with good frets and labels matching its pitches |
| ChordTable.CBarreSixGood | Learn_Chords/data.js:24-35 | "Barre (Root 6)" at the 8th fret is good |
| ChordTable.CBarreFiveGood | Learn_Chords/data.js:36-47 | "Barre (Root 5)" at the 3rd fret is good |
| ChordTable.CMinorOpenGood | Learn_Chords/data.js:50-61 | the corrected "Cm Open" is good |
| ChordTable.CMinorBarreGood | Learn_Chords/data.js:62-73 | "Cm Barre" is good |
| ChordTable.GOpenGood | Learn_Chords/data.js:78-89 | "G Open" is good over G |
| ChordTable.CEntryGood | Learn_Chords/data.js:10-75 | in the C entry as written every variation key is distinct and not "undefined", every voicing lists strings 6..1, and every voicing is good except the first minor one ("Cm Open") |
| ChordTable.CMinorOpenAsWrittenWellFormed | Learn_Chords/data.js:50-61 | "Cm Open" as written still lists strings 6..1 with valid frets and fingers |
| ChordTable.ChordDataAsWrittenShape | Learn_Chords/data.js:9-93 | the table as written is well formed, and each of its voicings is good for its root except C minor's first |
| ChordTable.CorrectedCEntryGood | Learn_Chords/data.js:10-75 | with the "Cm Open" label corrected, every C variation has a distinct key and a good voicing |
| ChordTable.ChordDataGood | Learn_Chords/data.js:9-93 | the corrected table (the corrected half of the finding below) is good |
| ChordTable.WithPlaceholdersContents | Learn_Chords/data.js:95-105 | after the loop `WithPlaceholders` has every listed root as a key; existing roots keep their entry, and new ones get the placeholder |
| ChordTable.WithPlaceholdersIdempotent | Learn_Chords/data.js:96-97 | running the loop twice is running it once |
| ChordTable.WithPlaceholdersGood | Learn_Chords/data.js:98-103 | placeholders keep a good table good |
| ChordTable.WithPlaceholdersWellFormed | Learn_Chords/data.js:98-103 | placeholders keep a well-formed table well formed |
| ChordTable.ChordDataRoots | Learn_Chords/data.js:7-93 | the roots of the literal as written are C and G, both names of NOTES |
| ChordTable.LoadedTable | Learn_Chords/data.js:95-105 | after loading the literal as written, the roots are exactly NOTES; C and G are untouched, every other root has major, minor, 7 and maj7 with no variations, and the loaded table is well formed |
| ChordTable.LoadedTableMislabelled | Learn_Chords/data.js:50-105 | the loaded table as written is not good (the "Cm Open" label), while the same load of the corrected literal is |
| ChordTable.LoadedExamples | Learn_Chords/data.js:98-103 | in the loaded table as written, C has no "7" type, and D has an empty "major" |
| ChordTable.ChordLibrary.constructor | Learn_Chords/data.js:9-93 | the library starts as the literal as written, "Cm Open" label included |
| ChordTable.ChordLibrary.FillPlaceholders | Learn_Chords/data.js:96-105 | the in-place loop leaves exactly WithPlaceholders of the old table |
| ChordTable.Load | Learn_Chords/data.js:9-105 | a fresh library holding WithPlaceholders of the literal as written |
| ChordExplorer.Sounding | Learn_Chords/script.js:463-464 | the non-muted entries, in order |
| ChordExplorer.ScheduleIsStrum | Learn_Chords/script.js:463-473 | `Schedule` has one tone per non-muted entry, at `STRING_FREQS[s-1]·2^(fret/12)`, the k-th at now + 0.03·k |
| ChordExplorer.ScheduleTimesIncrease | Learn_Chords/script.js:461-471 | the first tone starts now and start times strictly increase |
| ChordExplorer.SameNotesAsDrawing | Learn_Chords/script.js:463-468 | the play button sounds the same strings, in the same order, as the modular drawChord collects |
| ChordExplorer.Selected | Learn_Chords/script.js:135-166 | none iff the root, the type or any variation is missing; otherwise the first variation. On a well-formed table it lists strings 6..1; on a good table it is also a good voicing |
| ChordExplorer.SelectedOnLoadedTable | Learn_Chords/script.js:135-162 | on the program's loaded table, which is well formed, C major, C minor and G major select their first voicing; C minor selects "Cm Open" with its b3 label as written |
| ChordExplorer.NothingSelectedOnLoadedTable | Learn_Chords/script.js:136-166 | on the program's loaded table C "7", G minor and D major select nothing |
| ChordExplorer.ExplorerState.constructor | Learn_Chords/script.js:13-20 | C, major, variation 0, capo 0, right-handed, no chord |
| ChordExplorer.ExplorerState.SelectVariation | Learn_Chords/script.js:169-192 | the index is set first; with root or type missing nothing else changes, otherwise the chord is `typeData[keys[index]]` |
| ChordExplorer.ExplorerState.SelectChord | Learn_Chords/script.js:124-167 | sets root and type; the chord becomes Selected, and the variation is reset to 0 when one was found |
| ChordExplorer.ExplorerState.OnRootClick | Learn_Chords/script.js:60-65 | selects the clicked root with the current type |
| ChordExplorer.ExplorerState.OnTypeChange | Learn_Chords/script.js:68-70 | selects the current root with the new type |
| ChordExplorer.ExplorerState.SetHandedness | Learn_Chords/script.js:105-110 | changes only the handedness |
| ChordExplorer.ExplorerState.SetCapo | Learn_Chords/script.js:82-89 | changes only the capo |
| ChordExplorer.ExplorerState.PlayCurrentChord | Learn_Chords/script.js:450-474 | nothing without a chord; otherwise exactly the strum schedule of its fingering |
| ChordExplorer.Strum | Learn_Chords/script.js:460-473 | the loop with its running delay yields exactly the strum schedule |
| Wheel.KeyIndex | music-wheel/script.js:141-144 | the lifted index lies in [0, 12) and is `(slot + offset) mod 12` |
| Wheel.NegativeBranchDead | music-wheel/script.js:320-321 | for the twelve slots and three ring offsets the remainder is never negative |
| Wheel.SlotKeyRoundTrip | music-wheel/script.js:141-144 | on each ring, slots and keys are in one-to-one correspondence |
| Wheel.KeysAreFifths | music-wheel/script.js:6 | reading each name of KEYS as a pitch class (its letter, one lower for a trailing "b"), the i-th key is `7·i mod 12` semitones above C |
| Wheel.SlotIsOneKey | music-wheel/script.js:11-18 | in each slot the minor ring shows the relative minor (+9) and the dim ring the leading tone (+11) of the major key |
| Wheel.HitRing | music-wheel/script.js:315-317 | a ring is hit iff the radius lies strictly between its inner and outer radii |
| Wheel.BoundariesHitNothing | music-wheel/script.js:315-317 | radii 90, 170, 250 and 330 hit no ring |
| Wheel.VirtualAngle | music-wheel/script.js:306-308 | the virtual angle lies in [0, 360) and is `(angle - rotation) mod 360` |
| Wheel.SlotAt | music-wheel/script.js:306-311 | the slot lies in [0, 12) and is the 30° sector holding `(virtual + 105) mod 360` |
| Wheel.RotationMovesSlot | music-wheel/script.js:306-311 | turning the wheel by 30° moves the cursor's slot back by one |
| Wheel.WheelLabel | music-wheel/script.js:196-198 | the key alone for major, the key + "m" for minor and the key + "°" for diminished |
| Wheel.HoverNameIsLabel | music-wheel/script.js:325 | the hovered name is the segment's label |
| Wheel.TooltipHeading | music-wheel/script.js:345-348 | the key followed by " Major", " Minor" or " Diminished" |
| Wheel.Hover | music-wheel/script.js:288-335 | a chord iff not dragging and a ring is hit; its key is the one at the cursor's slot on that ring |
| Wheel.HoveredChordHasCard | music-wheel/script.js:320-325 | every hovered key has stored shapes |
| Wheel.TooltipCoordinate | music-wheel/script.js:358-359 | `min(extent - reserve, max(10, p + 20))`: p + 20 when it lies in [10, extent - reserve]; extent - reserve when p + 20 passes it or when that bound is below 10; 10 when p + 20 is below 10 and the bound allows it |
| Wheel.TooltipPosition | music-wheel/script.js:358-359 | per coordinate (300 reserved across, 200 down): the cursor + 20 when that fits, the far bound when the cursor + 20 passes it, 10 when the cursor + 20 is below 10; never past the reserve, at least 10 when the window allows |
| Wheel.EveryKeyHasShapes | music-wheel/script.js:22-83 | every key of the wheel has an entry in the shape table |
| Wheel.Positives | music-wheel/script.js:410 | the positive frets, in order |
| Wheel.MinOf | music-wheel/script.js:411 | the smallest positive fret |
| Wheel.LastIndexOf | music-wheel/script.js:441-443 | the last string holding a fret, or -1 |
| Wheel.DistinctAscending | music-wheel/script.js:433 | the distinct frets in strictly increasing order |
| Wheel.FirstRepeated | music-wheel/script.js:434-452 | the first fret in the list used on two or more strings, or none if there is none |
| Wheel.FirstRepeatedIsSmallest | music-wheel/script.js:434-452 | no smaller fret of the sorted list is used twice |
| Wheel.BarreOfMeaning | music-wheel/script.js:425-452 | `BarreOf`: no barre iff no positive fret repeats; otherwise the smallest repeated positive fret, spanning its first to its last string |
| Wheel.StartOffsetMeaning | music-wheel/script.js:410-418 | `StartOffset` is 0 iff nothing is fretted or some fret is at most 2. Otherwise every fret shows at row 1 or below, and the lowest at row 1 |
| Wheel.EveryShownNoteIsDrawn | music-wheel/script.js:493-522 | every fretted note within five rows gets a dot or is covered by the drawn barre |
| Wheel.MarksMeaning | music-wheel/script.js:493-522 | `MarkOf` gives × iff muted, ○ iff open; a dot only for a fretted note, at its row relative to the offset, within 1..5 |
| Wheel.ExampleShapes | music-wheel/script.js:22-83 | C, F and E♭ major are stored as written |
| Wheel.OpenCStart | music-wheel/script.js:417-418 | open C starts at the nut |
| Wheel.OpenCBarre | music-wheel/script.js:428-452 | open C has no barre |
| Wheel.OpenCMarks | music-wheel/script.js:493-522 | open C shows ×, three dots and two circles |
| Wheel.OpenCDiagram | music-wheel/script.js:401-525 | the full open-C diagram |
| Wheel.FMajorStart | music-wheel/script.js:417-418 | F major starts at the nut |
| Wheel.FMajorBarre | music-wheel/script.js:428-452 | F major barres fret 1 across all six strings |
| Wheel.FMajorMarks | music-wheel/script.js:481-522 | F major draws the barre and three dots; the barred notes get none |
| Wheel.FMajorDiagram | music-wheel/script.js:401-525 | the full F-major diagram |
| Wheel.EFlatMajorStart | music-wheel/script.js:417-418 | E♭ major starts at offset 5 |
| Wheel.EFlatMajorBarre | music-wheel/script.js:428-452 | E♭ major barres fret 6 from string index 1 to 5 |
| Wheel.EFlatMajorMarks | music-wheel/script.js:472-522 | E♭ major shows fret number 6, the barre, × and three dots on row 3 |
| Wheel.EFlatMajorDiagram | music-wheel/script.js:401-525 | the full E♭-major diagram |
| Wheel.RenderChordDiagram | music-wheel/script.js:401-525 | the renderer computes exactly `DiagramOf` of the frets: start offset, barre and one mark per string |
| Wheel.CountFrets | music-wheel/script.js:425-426 | the counts map has exactly the frets as keys, each with its number of occurrences |
| Wheel.FindBarre | music-wheel/script.js:428-452 | the ascending scan with `break` finds exactly BarreOf |
| Wheel.DrawMarks | music-wheel/script.js:493-522 | one mark per string, by the mark rule |
| Wheel.CreateChordCard | music-wheel/script.js:373-394 | "?" iff the key has no shapes; otherwise the diagram of the stored shape for the type |
| Wheel.WrapDelta | music-wheel/script.js:545-548 | the delta moves by at most one turn and lands in [-180, 180] for deltas within ±540 |
| Wheel.SnapTarget | music-wheel/script.js:573 | a multiple of 30 within 15° of the rotation |
| Wheel.SnapIdempotent | music-wheel/script.js:573 | snapping a snapped rotation changes nothing |
| Wheel.WheelState.constructor | music-wheel/script.js:106-110 | rotation 0, not dragging, no snap running |
| Wheel.WheelState.StartDrag | music-wheel/script.js:535-540 | starts dragging, cancels the snap, records the start angle and rotation |
| Wheel.WheelState.OnDrag | music-wheel/script.js:542-550 | no effect unless dragging; otherwise rotation = start rotation + wrapped delta, within ±180 of it |
| Wheel.WheelState.ScheduleSnap | music-wheel/script.js:570-593 | starts a snap from the current rotation to its target |
| Wheel.WheelState.EndDrag | music-wheel/script.js:552-555 | stops dragging and schedules the snap |
| Wheel.WheelState.OnScroll | music-wheel/script.js:557-564 | the rotation becomes ScrollRotation of the old one (+0.1·deltaY), the snap is cancelled and the scroll timer armed |
| Wheel.ScrollRotation | music-wheel/script.js:559 | the wheel turns by a tenth of the scroll delta, forward exactly when the delta is positive |
| Wheel.ScrollsAccumulate | music-wheel/script.js:559 | two scroll events turn the wheel as far as one with the summed delta |
| Wheel.WheelState.ScrollTimerFires | music-wheel/script.js:563 | the timer schedules the snap |
| Wheel.WheelState.SnapFrame | music-wheel/script.js:579-591 | from 400 ms on the rotation is the target, a multiple of 30, and the snap ends; before that the eased value |
| LegacyWheel.SameConfiguration | script.js:6-18 | the same keys and rings as the music-wheel version |
| LegacyWheel.KeyIndexAgrees | script.js:76-79 | the key index equals the music-wheel one, and its negative branch is dead |
| LegacyWheel.RingAt | script.js:266-268 | ring 0, 1 or 2 iff the radius lies strictly in (250, 330), (170, 250) or (90, 170) |
| LegacyWheel.KeyIndex | script.js:76-79 | the lifted index lies in [0, 12) |
| LegacyWheel.BoundariesHitNothing | script.js:266-268 | the ring boundaries hit nothing |
| LegacyWheel.SlotAt | script.js:257-262 | the slot lies in [0, 12) |
| LegacyWheel.SlotAgrees | script.js:257-262 | the slot under the cursor equals the music-wheel one |
| LegacyWheel.NamesAgree | script.js:131-133 | labels and hover names agree with each other and with the music-wheel version: the key alone for major, "m" for minor, "°" for dim |
| LegacyWheel.WheelLabel | script.js:131-133 | the segment label starts with the key; it is the key alone iff the ring is major, and the key plus "m" iff it is minor |
| LegacyWheel.HoverName | script.js:276 | the hover name starts with the key; it is the key alone iff the chord is major, and the key plus "m" iff it is minor |
| LegacyWheel.Hover | script.js:239-286 | a chord iff not dragging and a ring is hit |
| LegacyWheel.HoverAgrees | script.js:239-286 | the hovered chord equals the music-wheel one |
| LegacyWheel.TooltipPosition | script.js:309-310 | per coordinate: the cursor + 20 when that fits, the far bound (width - 300, height - 200) when the cursor + 20 passes it, 10 when it is below 10; never past the far bound, at least 10 when the window allows |
| LegacyWheel.TooltipAgrees | script.js:309-310 | the tooltip position equals the music-wheel one: at least 10 when the window is wide enough, x + 20 when that fits |
| LegacyWheel.DragRotation | script.js:366-374 | with both angles in (-180, 180] the rotation moves by at most 180° |
| LegacyWheel.DragAgrees | script.js:366-374 | the drag rotation is start rotation + the music-wheel wrapped delta |
| LegacyWheel.ScrollRotation | script.js:383 | the wheel turns forward exactly when the scroll delta is positive |
| LegacyWheel.ScrollAgrees | script.js:381-388 | the root script's scroll turns the wheel to the rotation the music-wheel OnScroll sets, a tenth of the delta further |
| LegacyWheel.SnapTarget | script.js:397 | the target is a multiple of 30 |
| LegacyWheel.SnapAgrees | script.js:394-408 | `SnapFrame`'s target equals the music-wheel one and, from 400 ms on, is the rotation, within 15° of the start |
| LegacyWheel.ChordCard | script.js:324-349 | the bar appears iff the variant is "Barre"; three dots |
| LegacyWheel.CardIgnoresChord | script.js:324-349 | two chords get the same card: the picture does not depend on the chord |

## Left out

- Drawing of any kind: DOM, SVG and CSS. This covers `drawWheel`, `drawOverlay`, `describeArc`, `polar`, `renderFretboard`, `drawBoard`, the SVG text of `renderChordSVG` and `createChordCard`, the root buttons and list markup. These are string building and trigonometry. The model keeps the decisions they draw: marks, barre, start fret, labels.
- Audio: microphone capture, the `updateLoop` frame loop, `playTunedSound`, the oscillators and the Web Audio wrapper `Learn_Chords/js/audio.js`. The tuner session returns whether the chime rings. The play button returns its tone schedule.
- Floating point: samples, frequencies and angles are Dafny reals, so rounding, NaN and Infinity are not modelled. `Math.log2` and `Math.pow(2, ·)` are function parameters. `Math.sqrt` is avoided by comparing mean squares (`Tuner.GateIsRmsTest`).
- Tuner.Estimate.Frequency: `sampleRate / (lag + shift)` is only defined when neither denominator is zero. The source divides anyway and would produce Infinity or NaN.
- Tuner.AutoCorrelate: takes a frame of exactly 4096 samples, the configured size the trim loops hard-wire.
- The needle smoothing (`smoothNeedle`), the easing curve, the hover timers and the scroll timer delay. The easing is a parameter of `Wheel.WheelState.SnapFrame`. The 200 ms timer is the event `Wheel.WheelState.ScrollTimerFires`.
- Wheel.WheelState: a stale animation-frame request after a cancelled snap is not modelled; a snap is either running or not.
- `renderChordSVG`'s `maxFret` is computed but never used. The nut stroke width is a drawing detail.
- LegacyWheel: the root `script.js` drag, scroll and snap handlers are textually the same as the music-wheel ones. Their rotations are modelled as functions proved equal to the music-wheel results (`DragAgrees`, `ScrollAgrees`, `SnapAgrees`), not as a second class; the snap cancel and scroll timer they share are modelled once, in `Wheel.WheelState`.
- Tuner.TunerSession.constructor: the note name "--" and the blank indicator at start are the page markup's initial text, which is not part of this model; the script writes "--" itself only when AUTO is selected (tuner/script.js:123).
- LegacyWheel.ChordCard: models the fixed mock picture only as its bar flag and three dot rows.
- `handleSearch` in `Learn_Chords/script.js` is an empty stub. `Learn_Chords/js/main.js` only bootstraps.
- `parseInt` of the slider and list values happens before the handlers. The handlers receive the integer.
- ChordExplorer.ExplorerState.SelectVariation, SelectChord, OnRootClick, OnTypeChange and PlayCurrentChord: require `ChordTable.WellFormedTable` (object keys are distinct, no key is "undefined", every stored voicing lists strings 6..1). The table the program loads, label error included, meets it (`ChordTable.LoadedTable`).
- JsSemantics.ToUpper: upper-cases ASCII letters only, where JavaScript's `toUpperCase` is full Unicode. No non-ASCII character upper-cases into a name of NOTES, so the search result is the same.
- JavaScript object key order and prototype keys (`constructor`, `toString`) are not modelled. Tables are Dafny maps, and variation lists are sequences in literal order.
- Regular expressions are written out as predicates on strings: `^([A-G][#b]?)(-?\d+)$`, `^([A-G][#b]?)(.*)$` with the `i` flag, and `/\d/`.

## Findings

The library, and so the explorer, loads the table as written (`ChordTable.ChordDataAsWritten`); the voicing is only mislabelled, it still lists strings 6..1 (`ChordTable.CMinorOpenAsWrittenWellFormed`). The corrected table `ChordTable.ChordData` is proved good (`ChordTable.ChordDataGood`), and the load of the two tables is compared in `ChordTable.LoadedTableMislabelled`.

| source | as written | input that shows it | evidently intended | confidence | as-written member | corrected member |
|---|---|---|---|---|---|---|
| Learn_Chords/data.js:58 | "Cm Open" labels string 2, fret 1 as interval "b3" | string 2 is B3; fret 1 sounds C, the root of C minor, not E♭ | the label "R" | not executed | ChordTable.OpenMinorSecondStringMislabelled | ChordTable.CMinorOpenGood |
