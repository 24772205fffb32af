/**
 * The input handlers of the modular chord explorer (Learn_Chords/js/events.js):
 * the search box, the root buttons, the type selector, the list of shape
 * variations and the capo slider. Each one updates the shared state and
 * redraws; the search box also guesses the chord type from the text typed
 * after the root.
 */
module ChordEvents {
  import opened Options
  import opened JsSemantics
  import opened Theory
  import opened ChordShapes
  import opened ChordCore

  // ---------------------------------------------------------------------
  // The search pattern /^([A-G][#b]?)(.*)$/i (Learn_Chords/js/events.js:12)
  // ---------------------------------------------------------------------

  /** `[A-G]` under the `i` flag. */
  predicate RootLetter(c: char) { 'A' <= c <= 'G' || 'a' <= c <= 'g' }

  /** `[#b]` under the `i` flag. */
  predicate Accidental(c: char) { c == '#' || c == 'b' || c == 'B' }

  /** The characters `.` does not match. */
  predicate LineTerminator(c: char) { c == '\n' || c == '\r' || c == '\U{2028}' || c == '\U{2029}' }

  predicate NoLineTerminator(s: string) { forall i :: 0 <= i < |s| ==> !LineTerminator(s[i]) }

  /** `val` splits into a first group matching `[A-G][#b]?` and a second group
      matching `.*`, as the anchored pattern requires. */
  predicate PatternSplit(val: string, root: string, suffix: string)
  {
    && val == root + suffix
    && (|root| == 1 || (|root| == 2 && Accidental(root[1])))
    && RootLetter(root[0])
    && NoLineTerminator(suffix)
  }

  /** `val.match(...)`: the two groups, or `None` for `null`. The optional
      accidental is greedy, so the root group is the longest that fits. */
  function SearchMatch(val: string): (m: Option<(string, string)>)
    ensures m.Some? ==> PatternSplit(val, m.value.0, m.value.1)
    ensures m.Some? ==> forall root, suffix :: PatternSplit(val, root, suffix) ==> |root| <= |m.value.0|
    ensures m.None? ==> forall root, suffix :: !PatternSplit(val, root, suffix)
  {
    if |val| == 0 || !RootLetter(val[0]) || !NoLineTerminator(val[1..]) then
      assert forall root, suffix :: PatternSplit(val, root, suffix) ==> val[1..] == root[1..] + suffix;
      None
    else if |val| >= 2 && Accidental(val[1]) then
      assert val == val[..2] + val[2..];
      Some((val[..2], val[2..]))
    else
      assert val == val[..1] + val[1..];
      assert forall root, suffix :: PatternSplit(val, root, suffix) ==> root[..1] == val[..1];
      Some((val[..1], val[1..]))
  }

  /** Lines 14-18: the root group upper-cased, then its first character
      upper-cased again when it has two. */
  function SearchRoot(group: string): string
  {
    var root := ToUpper(group);
    if |root| > 1 then [UpperChar(root[0])] + root[1..] else root
  }

  lemma UpperCharIdempotent(c: char)
    ensures UpperChar(UpperChar(c)) == UpperChar(c)
  {
  }

  /** The second normalisation step changes nothing: the root is simply the
      upper-cased group, so a flat "b" becomes "B" ("Db" gives "DB"). */
  lemma SearchRootIsUpperCase(group: string)
    ensures SearchRoot(group) == ToUpper(group)
  {
    var root := ToUpper(group);
    if |root| > 1 {
      UpperCharIdempotent(group[0]);
      assert [UpperChar(root[0])] + root[1..] == root;
    }
  }

  /** Lines 26-29: the chord type guessed from the text after the root. */
  function SuffixType(suffix: string): (t: string)
    ensures t in {"minor", "maj7", "7", "major"}
    ensures t == "minor" <==> Includes(suffix, "m") && !Includes(suffix, "maj")
    ensures t == "major" <==> (!Includes(suffix, "m") || Includes(suffix, "maj")) && !Includes(suffix, "maj7") && !Includes(suffix, "7")
    ensures t == "maj7" <==> t != "minor" && Includes(suffix, "maj7")
    ensures t == "7" <==> t != "minor" && !Includes(suffix, "maj7") && Includes(suffix, "7")
  {
    if Includes(suffix, "m") && !Includes(suffix, "maj") then "minor"
    else if Includes(suffix, "maj7") then "maj7"
    else if Includes(suffix, "7") then "7"
    else "major"
  }

  /** Any "m" without "maj" wins, so "m7" is read as minor. */
  lemma SuffixTypeExamples()
    ensures SuffixType("") == "major"
    ensures SuffixType("m") == "minor"
    ensures SuffixType("m7") == "minor"
    ensures SuffixType("7") == "7"
    ensures SuffixType("maj7") == "maj7"
  {
    assert OccursAt("m", "m", 0);
    assert OccursAt("m7", "m", 0);
    assert OccursAt("7", "7", 0);
    assert OccursAt("maj7", "maj7", 0);
    assert OccursAt("maj7", "maj", 0);
  }

  /** Text the pattern accepts sets the root and the type; "Cm" selects C minor. */
  lemma SearchExamples()
    ensures SearchMatch("Cm") == Some(("C", "m"))
    ensures SearchMatch("Db") == Some(("Db", ""))
    ensures SearchMatch("Hm").None? && SearchMatch("").None?
  {
    assert "Cm"[..1] == "C" && "Cm"[1..] == "m";
    assert "Db"[..2] == "Db" && "Db"[2..] == "";
  }

  /** A searched flat is not one of the twelve sharp names, so it is drawn a
      semitone below C, as B. */
  lemma SearchedFlatDrawsAsB()
    ensures SearchMatch("Db") == Some(("Db", ""))
    ensures SearchRoot("Db") == "DB" && SemitoneShift("DB") == 11
  {
    SearchExamples();
    SearchRootIsUpperCase("Db");
    assert ToUpper("Db") == "DB";
    assert "DB" !in Notes;
    SemitoneShiftIsPosition("DB");
  }

  // ---------------------------------------------------------------------
  // The list of variations (Learn_Chords/js/events.js:100-117)
  // ---------------------------------------------------------------------

  /** One list item: its `data-index` text, the shape name and whether it is
      marked active. */
  datatype VariationItem = VariationItem(index: string, name: string, active: bool)

  /** `updateVariationsList`: one item per stored C shape of the type, or
      `None` ("No shapes found") when the type is not stored. */
  function VariationItems(chordType: string, variationIndex: int): (items: Option<seq<VariationItem>>)
    ensures items.None? <==> chordType !in CShapes
    ensures items.Some? ==> |items.value| == |CShapes[chordType]|
    ensures items.Some? ==> forall k :: 0 <= k < |items.value| ==>
      && items.value[k].name == CShapes[chordType][k].name
      && items.value[k].index == NatToString(k)
      && (items.value[k].active <==> k == variationIndex)
  {
    var templateData := ChordData["C"];
    if chordType in templateData then
      var shapes := templateData[chordType];
      Some(seq(|shapes|, k requires 0 <= k < |shapes| => VariationItem(NatToString(k), shapes[k].name, k == variationIndex)))
    else
      None
  }

  /** Clicking the k-th item reads back index k, and the item marked active is
      the one whose shape is drawn: at most one is, and one is exactly when
      the index lies within the list. */
  lemma VariationItemsAgreeWithDrawing(chordType: string, variationIndex: int, k: int)
    requires chordType in CShapes && 0 <= k < |CShapes[chordType]|
    ensures DecimalValue(VariationItems(chordType, variationIndex).value[k].index) == k
    ensures VariationItems(chordType, variationIndex).value[k].active
      <==> GetGenericShape(chordType, variationIndex) == Some(CShapes[chordType][k])
  {
    DecimalValueOfNatToString(k);
    GetGenericShapeFinds(chordType, variationIndex);
    var shapes := CShapes[chordType];
    if GetGenericShape(chordType, variationIndex) == Some(shapes[k]) && k != variationIndex {
      ShapesDistinct(chordType, k, variationIndex);
    }
  }

  /** The shapes stored for one type have distinct names, hence differ. */
  lemma ShapesDistinct(chordType: string, i: int, j: int)
    requires chordType in CShapes && 0 <= i < |CShapes[chordType]| && 0 <= j < |CShapes[chordType]| && i != j
    ensures CShapes[chordType][i] != CShapes[chordType][j]
  {
    var shapes := CShapes[chordType];
    assert shapes[i].name != shapes[j].name;
  }

  // ---------------------------------------------------------------------
  // The handlers (Learn_Chords/js/events.js:10-77)
  // ---------------------------------------------------------------------

  /** The search box: text the pattern rejects changes nothing; otherwise
      the root and the guessed type are set and the chord redrawn. */
  method OnSearch(st: AppState, val: string, pow2: real -> real) returns (shown: Option<string>)
    modifies st
    ensures SearchMatch(val).None? ==> shown.None? && unchanged(st)
    ensures SearchMatch(val).Some? ==>
      var root, chordType := SearchRoot(SearchMatch(val).value.0), SuffixType(SearchMatch(val).value.1);
      && st.root == root && st.chordType == chordType
      && (st.currentChordName, st.activeFrets)
        == Drawn(root, chordType, old(st.variationIndex), old(st.currentChordName), old(st.activeFrets), pow2)
      && st.variationIndex == old(st.variationIndex) && st.capo == old(st.capo)
      && shown == Some(DisplayedName(st.currentChordName, st.capo))
  {
    var found := SearchMatch(val);
    if found.None? {
      return None;
    }
    var root := ToUpper(found.value.0);
    if |root| > 1 {
      root := [UpperChar(root[0])] + root[1..];
    }
    st.root := root;
    var suffix := found.value.1;
    if Includes(suffix, "m") && !Includes(suffix, "maj") {
      st.chordType := "minor";
    } else if Includes(suffix, "maj7") {
      st.chordType := "maj7";
    } else if Includes(suffix, "7") {
      st.chordType := "7";
    } else {
      st.chordType := "major";
    }
    var text := Render(st, pow2);
    shown := Some(text);
  }

  /** A root button: sets the root and redraws. */
  method OnRootClick(st: AppState, note: string, pow2: real -> real) returns (shown: string)
    modifies st
    ensures st.root == note && st.chordType == old(st.chordType)
    ensures st.variationIndex == old(st.variationIndex) && st.capo == old(st.capo)
    ensures (st.currentChordName, st.activeFrets)
      == Drawn(note, old(st.chordType), old(st.variationIndex), old(st.currentChordName), old(st.activeFrets), pow2)
    ensures shown == DisplayedName(st.currentChordName, st.capo)
  {
    st.root := note;
    shown := Render(st, pow2);
  }

  /** The type selector: sets the type, redraws and rebuilds the list. The
      variation index is kept, even when the new type has fewer shapes. */
  method OnTypeChange(st: AppState, value: string, pow2: real -> real) returns (shown: string, items: Option<seq<VariationItem>>)
    modifies st
    ensures st.chordType == value && st.root == old(st.root)
    ensures st.variationIndex == old(st.variationIndex) && st.capo == old(st.capo)
    ensures (st.currentChordName, st.activeFrets)
      == Drawn(old(st.root), value, old(st.variationIndex), old(st.currentChordName), old(st.activeFrets), pow2)
    ensures shown == DisplayedName(st.currentChordName, st.capo)
    ensures items == VariationItems(value, old(st.variationIndex))
  {
    st.chordType := value;
    shown := Render(st, pow2);
    items := VariationItems(st.chordType, st.variationIndex);
  }

  /** Switching from the third major shape to minor, which has two shapes,
      finds no shape: the previous name and frequencies stay, and no list
      item is active. */
  lemma StaleVariationKeepsDrawing(root: string, name: string, frets: seq<real>, pow2: real -> real)
    ensures Drawn(root, "minor", 2, name, frets, pow2) == (name, frets)
    ensures forall k :: 0 <= k < |VariationItems("minor", 2).value| ==> !VariationItems("minor", 2).value[k].active
  {
    GetGenericShapeFinds("minor", 2);
  }

  /** A list item: selects the variation whose index it carries (already read
      by `parseInt`) and redraws. */
  method OnVariationClick(st: AppState, index: int, pow2: real -> real) returns (shown: string)
    modifies st
    ensures st.variationIndex == index && st.root == old(st.root)
    ensures st.chordType == old(st.chordType) && st.capo == old(st.capo)
    ensures (st.currentChordName, st.activeFrets)
      == Drawn(old(st.root), old(st.chordType), index, old(st.currentChordName), old(st.activeFrets), pow2)
    ensures shown == DisplayedName(st.currentChordName, st.capo)
  {
    st.variationIndex := index;
    shown := Render(st, pow2);
  }

  /** The capo slider: sets the capo (already read by `parseInt`) and
      redraws. The capo changes only the displayed name, never the frets. */
  method OnCapoInput(st: AppState, capo: int, pow2: real -> real) returns (shown: string)
    modifies st
    ensures st.capo == capo && st.root == old(st.root) && st.chordType == old(st.chordType)
    ensures st.variationIndex == old(st.variationIndex)
    ensures (st.currentChordName, st.activeFrets)
      == Drawn(old(st.root), old(st.chordType), old(st.variationIndex), old(st.currentChordName), old(st.activeFrets), pow2)
    ensures shown == DisplayedName(st.currentChordName, capo)
  {
    st.capo := capo;
    shown := Render(st, pow2);
  }
}
