/**
 * The circle-of-fifths wheel (music-wheel/script.js): twelve slots on three
 * rings (major inside, minor in the middle, diminished outside), the hit test
 * that turns a cursor position into a chord, the chord diagrams of the
 * tooltip, and the drag, scroll and snap handling of the wheel's rotation.
 * Angles and radii are reals; `Math.atan2`, `Math.sqrt` and the SVG output
 * are outside the model, so the cursor's angle and radius are inputs.
 */
module Wheel {
  import opened Options
  import opened JsSemantics

  const Segments: int := 12

  /** `KEYS`: the major keys in circle-of-fifths order, slot 0 at the top. */
  const Keys: seq<string> := ["C", "G", "D", "A", "E", "B", "Gb", "Db", "Ab", "Eb", "Bb", "F"]

  /** The pitch class (C = 0) a key name stands for: its letter's, one
      semitone lower when the name ends in the flat sign "b". */
  function NamePitchClass(name: string): (pc: int)
    requires |name| > 0
    ensures 0 <= pc < 12
  {
    var letter := match name[0]
      case 'C' => 0 case 'D' => 2 case 'E' => 4 case 'F' => 5
      case 'G' => 7 case 'A' => 9 case 'B' => 11 case _ => 0;
    var flat := if |name| > 1 && name[|name| - 1] == 'b' then 1 else 0;
    (letter - flat) % 12
  }

  /** The pitch class of each name of `Keys`, in slot order. */
  const KeyPitchClasses: seq<int> := seq(|Keys|, i requires 0 <= i < |Keys| => NamePitchClass(Keys[i]))

  datatype ChordType = Major | Minor | Dim

  /** One entry of `RING_CONFIG`: its radii, its key offset and its chord type. */
  datatype Ring = Ring(id: string, rOuter: real, rInner: real, offset: int, chordType: ChordType)

  const RingConfig: seq<Ring> := [
    Ring("dim", 330.0, 250.0, 5, Dim),
    Ring("minor", 250.0, 170.0, 3, Minor),
    Ring("major", 170.0, 90.0, 0, Major)]

  // ---------------------------------------------------------------- keys

  /** `(i + ring.offset) % SEGMENTS`, a negative remainder lifted by
      `SEGMENTS`: the index of the key shown in slot `slot`. */
  function KeyIndex(slot: int, offset: int): (k: int)
    ensures 0 <= k < Segments
    ensures k == (slot + offset) % Segments
  {
    RemTwelveNormalised(slot + offset);
    var noteIdx := IntRem(slot + offset, Segments);
    if noteIdx < 0 then noteIdx + Segments else noteIdx
  }

  /** For the twelve slots and the three ring offsets the remainder is never
      negative, so the lifting branch is never taken. */
  lemma NegativeBranchDead(slot: int, ring: int)
    requires 0 <= slot < Segments && 0 <= ring < |RingConfig|
    ensures IntRem(slot + RingConfig[ring].offset, Segments) >= 0
  {
  }

  /** The slot that shows key `k` on a ring with offset `offset`. */
  function SlotOfKey(k: int, offset: int): int
  {
    (k - offset) % Segments
  }

  /** On every ring the twelve slots show the twelve keys, each once. */
  lemma SlotKeyRoundTrip(slot: int, k: int, offset: int)
    requires 0 <= slot < Segments && 0 <= k < Segments
    ensures KeyIndex(SlotOfKey(k, offset), offset) == k
    ensures SlotOfKey(KeyIndex(slot, offset), offset) == slot
  {
    var s := SlotOfKey(k, offset);
    assert (s + offset) % Segments == k by {
      assert s == (k - offset) % Segments;
      ModOfSum(k - offset, offset);
    }
    ModOfSum(slot + offset, -offset);
  }

  /** `(a % 12 + b) % 12 == (a + b) % 12`. */
  lemma ModOfSum(a: int, b: int)
    ensures (a % Segments + b) % Segments == (a + b) % Segments
  {
    var q := a / Segments;
    assert a == q * Segments + a % Segments;
    assert a + b == (a % Segments + b) + q * Segments;
    ModShift(a % Segments + b, q);
  }

  /** Adding whole multiples of 12 does not change a remainder. */
  lemma {:induction false} ModShift(x: int, q: int)
    ensures (x + q * Segments) % Segments == x % Segments
    decreases if q < 0 then -q else q
  {
    if q > 0 {
      ModShift(x, q - 1);
      assert x + q * Segments == (x + (q - 1) * Segments) + Segments;
    } else if q < 0 {
      ModShift(x, q + 1);
      assert x + q * Segments == (x + (q + 1) * Segments) - Segments;
    }
  }

  /** Consecutive names of `Keys` are a fifth (7 semitones) apart. */
  lemma KeysAreFifths()
    ensures |KeyPitchClasses| == Segments
    ensures forall i :: 0 <= i < Segments ==> KeyPitchClasses[i] == (7 * i) % Segments
  {
  }

  /** The key in slot `i` lies `i` fifths above C. */
  lemma KeyIsFifthsFromC(i: int)
    requires 0 <= i < Segments
    ensures KeyPitchClasses[i] == (7 * i) % Segments
  {
    KeysAreFifths();
  }

  /** Each slot holds one key's diatonic triads: the minor ring shows the
      relative minor (vi, 9 semitones above the major key) and the diminished
      ring its leading-tone chord (vii°, 11 semitones above). */
  lemma SlotIsOneKey(slot: int)
    requires 0 <= slot < Segments
    ensures var major := KeyPitchClasses[KeyIndex(slot, RingConfig[2].offset)];
      && KeyPitchClasses[KeyIndex(slot, RingConfig[1].offset)] == (major + 9) % Segments
      && KeyPitchClasses[KeyIndex(slot, RingConfig[0].offset)] == (major + 11) % Segments
  {
    RingOffsetInterval(slot, 3, 9, 1);
    RingOffsetInterval(slot, 5, 11, 2);
  }

  /** Moving `offset` steps round the circle of fifths moves the pitch by
      `interval` semitones whenever `7 * offset == interval + 12 * q`. */
  lemma RingOffsetInterval(slot: int, offset: int, interval: int, q: int)
    requires 0 <= slot < Segments
    requires 7 * offset == interval + 12 * q
    ensures KeyPitchClasses[KeyIndex(slot, offset)] == (KeyPitchClasses[KeyIndex(slot, 0)] + interval) % Segments
  {
    var k := KeyIndex(slot, offset);
    assert KeyIndex(slot, 0) == slot;
    KeyIsFifthsFromC(k);
    KeyIsFifthsFromC(slot);
    calc {
      KeyPitchClasses[k];
      7 * ((slot + offset) % Segments) % Segments;
      { MulMod(slot + offset, 7); }
      (7 * slot + interval + q * Segments) % Segments;
      { ModShift(7 * slot + interval, q); }
      (7 * slot + interval) % Segments;
      { ModOfSum(7 * slot, interval); }
      (7 * slot % Segments + interval) % Segments;
    }
  }

  /** Multiplying after or before taking the remainder agrees modulo 12. */
  lemma MulMod(a: int, c: int)
    ensures c * (a % Segments) % Segments == c * a % Segments
  {
    var q := a / Segments;
    assert a == q * Segments + a % Segments;
    assert c * a == c * (a % Segments) + (c * q) * Segments;
    ModShift(c * (a % Segments), c * q);
  }

  // ---------------------------------------------------------------- hit test

  /** The ring under radius `rSVG`, checked outermost first with strict
      bounds, so the radii 90, 170, 250 and 330 hit nothing. */
  function HitRing(rSVG: real): (r: Option<Ring>)
    ensures r.Some? ==> r.value in RingConfig && r.value.rInner < rSVG < r.value.rOuter
    ensures r.None? <==> forall i :: 0 <= i < |RingConfig| ==> !(RingConfig[i].rInner < rSVG < RingConfig[i].rOuter)
  {
    if rSVG > 250.0 && rSVG < 330.0 then Some(RingConfig[0])
    else if rSVG > 170.0 && rSVG < 250.0 then Some(RingConfig[1])
    else if rSVG > 90.0 && rSVG < 170.0 then Some(RingConfig[2])
    else None
  }

  /** The ring boundaries themselves hit nothing. */
  lemma BoundariesHitNothing()
    ensures HitRing(90.0).None? && HitRing(170.0).None? && HitRing(250.0).None? && HitRing(330.0).None?
  {
  }

  /** `x mod 360` with a result in [0, 360): the reference the angle
      arithmetic below is stated against. */
  function Mod360(x: real): real
  {
    x - 360.0 * (x / 360.0).Floor as real
  }

  /** `(angleDeg - currentRotation) % 360`, plus 360 when negative. */
  function VirtualAngle(angleDeg: real, rotation: real): (v: real)
    ensures 0.0 <= v < 360.0
    ensures v == Mod360(angleDeg - rotation)
  {
    var x := angleDeg - rotation;
    var r := Rem360(x);
    RemIsMod(x);
    if r < 0.0 then r + 360.0 else r
  }

  /** JavaScript's remainder, lifted when negative, is the Euclidean one. */
  lemma RemIsMod(x: real)
    ensures (if Rem360(x) < 0.0 then Rem360(x) + 360.0 else Rem360(x)) == Mod360(x)
  {
    var t := Trunc(x / 360.0);
    var f := (x / 360.0).Floor;
    if x >= 0.0 {
      assert t == f;
    } else if Rem360(x) < 0.0 {
      assert t == f + 1;
    } else {
      assert t == f;
    }
  }

  /** The slot under the cursor: `Math.floor(((v + 105) % 360) / 30)`. It is
      the slot whose drawn sector `[30 i - 105, 30 i - 75)` holds the virtual
      angle, modulo 360. */
  function SlotAt(angleDeg: real, rotation: real): (s: int)
    ensures 0 <= s < Segments
    ensures 30.0 * s as real <= Mod360(VirtualAngle(angleDeg, rotation) + 105.0) < 30.0 * s as real + 30.0
  {
    var shiftedAngle := Rem360(VirtualAngle(angleDeg, rotation) + 105.0);
    (shiftedAngle / 30.0).Floor
  }

  /** Turning the wheel one segment clockwise moves the slot under a fixed
      cursor back by one. */
  lemma RotationMovesSlot(angleDeg: real, rotation: real)
    ensures SlotAt(angleDeg, rotation + 30.0) == (SlotAt(angleDeg, rotation) + 11) % Segments
  {
    var v := VirtualAngle(angleDeg, rotation);
    var w := VirtualAngle(angleDeg, rotation + 30.0);
    var s := SlotAt(angleDeg, rotation);
    var t := SlotAt(angleDeg, rotation + 30.0);
    var a := Mod360(v + 105.0);
    var b := Mod360(w + 105.0);
    var x := angleDeg - rotation;
    assert v == x - 360.0 * (x / 360.0).Floor as real;
    assert w == (x - 30.0) - 360.0 * ((x - 30.0) / 360.0).Floor as real;
    // b and a - 30 are equal modulo 360, and both a and b lie in [0, 360)
    var k := (x / 360.0).Floor - ((x - 30.0) / 360.0).Floor;
    assert w == v - 30.0 + 360.0 * k as real;
    var ka := ((v + 105.0) / 360.0).Floor;
    var kb := ((w + 105.0) / 360.0).Floor;
    assert b == a - 30.0 + 360.0 * (k + ka - kb) as real;
    if a >= 30.0 {
      assert k + ka - kb == 0;
      assert t == s - 1;
    } else {
      assert k + ka - kb == 1;
      assert s == 0 && t == 11;
    }
  }

  // ---------------------------------------------------------------- labels

  /** The text drawn on a ring segment: the key, then "m" on the minor ring
      and "°" on the diminished ring. */
  function WheelLabel(note: string, t: ChordType): (text: string)
    ensures note <= text
    ensures |text| == if t == Major then |note| else |note| + 1
    ensures t == Major ==> text == note
    ensures t == Minor ==> text == note + "m"
    ensures t == Dim ==> text == note + "°"
  {
    var text := note;
    var text := if t == Minor then text + "m" else text;
    var text := if t == Dim then text + "°" else text;
    assert t.Major? || t.Minor? || t.Dim?;
    text
  }

  /** `fullChordName`, the name the hover handler compares. */
  function HoverName(note: string, t: ChordType): string
  {
    note + (if t == Major then "" else if t == Minor then "m" else "°")
  }

  /** The hover handler names a chord exactly as the segment is labelled. */
  lemma HoverNameIsLabel(note: string, t: ChordType)
    ensures HoverName(note, t) == WheelLabel(note, t)
  {
  }

  /** The heading of the tooltip: the key and the chord type written out. */
  function TooltipHeading(note: string, t: ChordType): (h: string)
    ensures note <= h
    ensures h[|note|..] == if t == Minor then " Minor" else if t == Dim then " Diminished" else " Major"
  {
    if t == Minor then note + " Minor"
    else if t == Dim then note + " Diminished"
    else note + " Major"
  }

  /** `onMouseMove`: the chord under the cursor at radius `rSVG` and screen
      angle `angleDeg`, with the wheel turned by `rotation` — a key and a
      chord type, or nothing during a drag or off the rings. */
  function Hover(isDragging: bool, rSVG: real, angleDeg: real, rotation: real): (r: Option<(string, ChordType)>)
    ensures r.Some? <==> !isDragging && HitRing(rSVG).Some?
    ensures r.Some? ==> r.value.0 in Keys && r.value.1 == HitRing(rSVG).value.chordType
    ensures r.Some? ==> r.value.0 == Keys[KeyIndex(SlotAt(angleDeg, rotation), HitRing(rSVG).value.offset)]
  {
    if isDragging then None
    else
      var slotIndex := SlotAt(angleDeg, rotation);
      match HitRing(rSVG)
      case None => None
      case Some(ring) =>
        var validNoteIdx := KeyIndex(slotIndex, ring.offset);
        Some((Keys[validNoteIdx], ring.chordType))
  }

  /** Whatever the cursor hovers, the tooltip has a chord card to show. */
  lemma HoveredChordHasCard(isDragging: bool, rSVG: real, angleDeg: real, rotation: real)
    requires Hover(isDragging, rSVG, angleDeg, rotation).Some?
    ensures Hover(isDragging, rSVG, angleDeg, rotation).value.0 in ChordShapes
  {
    var k := KeyIndex(SlotAt(angleDeg, rotation), HitRing(rSVG).value.offset);
    EveryKeyHasShapes(k);
  }

  /** One coordinate of the tooltip: `Math.min(extent - reserve,
      Math.max(10, p + 20))`. It never leaves less than `reserve` before the
      far edge, keeps 10 from the near edge when the window is large enough,
      and is otherwise 20 past the cursor. */
  function TooltipCoordinate(p: real, extent: real, reserve: real): (t: real)
    ensures t <= extent - reserve
    ensures extent - reserve >= 10.0 ==> t >= 10.0
    ensures 10.0 <= p + 20.0 <= extent - reserve ==> t == p + 20.0
    ensures t == p + 20.0 || t == 10.0 || t == extent - reserve
    ensures p + 20.0 > extent - reserve ==> t == extent - reserve
    ensures p + 20.0 < 10.0 <= extent - reserve ==> t == 10.0
    ensures extent - reserve < 10.0 ==> t == extent - reserve
  {
    var lower := if 10.0 > p + 20.0 then 10.0 else p + 20.0;
    if extent - reserve < lower then extent - reserve else lower
  }

  /** The tooltip's left and top: 300 pixels are kept free on the right and
      200 at the bottom. */
  function TooltipPosition(x: real, y: real, innerWidth: real, innerHeight: real): (pos: (real, real))
    ensures pos.0 <= innerWidth - 300.0 && pos.1 <= innerHeight - 200.0
    ensures innerWidth >= 310.0 ==> pos.0 >= 10.0
    ensures innerHeight >= 210.0 ==> pos.1 >= 10.0
    ensures 10.0 <= x + 20.0 <= innerWidth - 300.0 ==> pos.0 == x + 20.0
    ensures x + 20.0 > innerWidth - 300.0 ==> pos.0 == innerWidth - 300.0
    ensures x + 20.0 < 10.0 <= innerWidth - 300.0 ==> pos.0 == 10.0
    ensures 10.0 <= y + 20.0 <= innerHeight - 200.0 ==> pos.1 == y + 20.0
    ensures y + 20.0 > innerHeight - 200.0 ==> pos.1 == innerHeight - 200.0
    ensures y + 20.0 < 10.0 <= innerHeight - 200.0 ==> pos.1 == 10.0
  {
    (TooltipCoordinate(x, innerWidth, 300.0), TooltipCoordinate(y, innerHeight, 200.0))
  }

  // ---------------------------------------------------------------- chord diagrams

  /** The three shapes stored for one key in `CHORD_SHAPES`, as frets per
      string, low E first; -1 muted, 0 open. */
  datatype Shapes = Shapes(major: seq<int>, minor: seq<int>, dim: seq<int>)
  {
    function Of(t: ChordType): seq<int>
    {
      match t
      case Major => major
      case Minor => minor
      case Dim => dim
    }
  }

  /** `CHORD_SHAPES`. */
  const ChordShapes: map<string, Shapes> := map[
    "C" := Shapes([-1, 3, 2, 0, 1, 0], [-1, 3, 5, 5, 4, 3], [-1, 3, 4, 2, 4, -1]),
    "G" := Shapes([3, 2, 0, 0, 0, 3], [3, 5, 5, 3, 3, 3], [3, -1, 2, 3, 2, -1]),
    "D" := Shapes([-1, -1, 0, 2, 3, 2], [-1, -1, 0, 2, 3, 1], [-1, -1, 0, 1, 0, 1]),
    "A" := Shapes([-1, 0, 2, 2, 2, 0], [-1, 0, 2, 2, 1, 0], [-1, 0, 1, 2, 1, 2]),
    "E" := Shapes([0, 2, 2, 1, 0, 0], [0, 2, 2, 0, 0, 0], [0, 1, 2, 0, 2, 0]),
    "B" := Shapes([-1, 2, 4, 4, 4, 2], [-1, 2, 4, 4, 3, 2], [-1, 2, 3, 1, 3, -1]),
    "Gb" := Shapes([2, 4, 4, 3, 2, 2], [2, 4, 4, 2, 2, 2], [2, -1, 1, 2, 1, -1]),
    "Db" := Shapes([-1, 4, 6, 6, 6, 4], [-1, 4, 6, 6, 5, 4], [-1, 4, 5, 3, 5, -1]),
    "Ab" := Shapes([4, 6, 6, 5, 4, 4], [4, 6, 6, 4, 4, 4], [4, -1, 3, 4, 3, -1]),
    "Eb" := Shapes([-1, 6, 8, 8, 8, 6], [-1, 6, 8, 8, 7, 6], [-1, -1, 1, 2, 1, 2]),
    "Bb" := Shapes([-1, 1, 3, 3, 3, 1], [-1, 1, 3, 3, 2, 1], [-1, 1, 2, 0, 2, -1]),
    "F" := Shapes([1, 3, 3, 2, 1, 1], [1, 3, 3, 1, 1, 1], [1, -1, 0, 1, 0, -1])]

  /** Every key of the wheel has shapes, so a hovered chord never gets the
      "?" card. */
  lemma EveryKeyHasShapes(k: int)
    requires 0 <= k < |Keys|
    ensures Keys[k] in ChordShapes
  {
    assert ChordShapes.Keys == {"C", "G", "D", "A", "E", "B", "Gb", "Db", "Ab", "Eb", "Bb", "F"};
  }

  /** A barre as `renderChordSVG` finds it: its fret and the first and last
      string index (0 = low E) holding exactly that fret. */
  datatype BarreBar = BarreBar(fret: int, firstString: int, lastString: int)

  /** What is drawn for one string above or on the grid. */
  datatype Mark = MuteCross | OpenCircle | Dot(row: int) | NoMark

  /** The discrete content of a chord diagram: the first fret shown, the fret
      number printed beside the grid, the barre, whether its bar is drawn,
      and one mark per string. */
  datatype Diagram = Diagram(startOffset: int, fretNumber: Option<int>, barre: Option<BarreBar>, barreDrawn: bool, marks: seq<Mark>)

  /** `frets.filter(f => f > 0)`. */
  function Positives(frets: seq<int>): (p: seq<int>)
    ensures |p| <= |frets|
    ensures forall x :: x in p <==> x in frets && x > 0
  {
    if frets == [] then []
    else
      var before := Positives(frets[..|frets| - 1]);
      var f := frets[|frets| - 1];
      assert frets == frets[..|frets| - 1] + [f];
      if f > 0 then before + [f] else before
  }

  /** `Math.min(...xs)` of a non-empty list. */
  function MinOf(xs: seq<int>): (m: int)
    requires |xs| > 0
    ensures m in xs && forall x :: x in xs ==> m <= x
  {
    if |xs| == 1 then xs[0]
    else
      var rest := MinOf(xs[1..]);
      assert forall x :: x in xs[1..] ==> x in xs;
      assert forall x :: x in xs ==> x == xs[0] || x in xs[1..];
      if xs[0] <= rest then xs[0] else rest
  }

  /** Occurrences of `v` in `xs`. */
  function Count(xs: seq<int>, v: int): nat
  {
    multiset(xs)[v]
  }

  /** A positive fret occurs as often among the positive frets as among all. */
  lemma {:induction false} CountPositive(frets: seq<int>, f: int)
    requires f > 0
    ensures Count(Positives(frets), f) == Count(frets, f)
  {
    if frets != [] {
      var init := frets[..|frets| - 1];
      var last := frets[|frets| - 1];
      assert frets == init + [last];
      CountPositive(init, f);
      if last > 0 {
        assert Positives(frets) == Positives(init) + [last];
      }
    }
  }

  /** A value counted twice sits at two different positions. */
  lemma {:induction false} CountTwice(xs: seq<int>, v: int)
    requires Count(xs, v) >= 2
    ensures exists i, j :: 0 <= i < j < |xs| && xs[i] == v && xs[j] == v
  {
    var init := xs[..|xs| - 1];
    assert xs == init + [xs[|xs| - 1]];
    if xs[|xs| - 1] == v {
      assert v in multiset(init);
      var i :| 0 <= i < |init| && init[i] == v;
      assert xs[i] == v && xs[|xs| - 1] == v;
    } else {
      CountTwice(init, v);
      var i, j :| 0 <= i < j < |init| && init[i] == v && init[j] == v;
      assert xs[i] == v && xs[j] == v;
    }
  }

  /** The last index of `v` in `xs`, or -1. */
  function LastIndexOf(xs: seq<int>, v: int): (i: int)
    ensures -1 <= i < |xs|
    ensures i == -1 <==> v !in xs
    ensures 0 <= i ==> xs[i] == v && forall j :: i < j < |xs| ==> xs[j] != v
  {
    if xs == [] then -1
    else if xs[|xs| - 1] == v then |xs| - 1
    else
      var init := xs[..|xs| - 1];
      assert forall j :: 0 <= j < |init| ==> init[j] == xs[j];
      assert v in xs ==> v in init;
      LastIndexOf(init, v)
  }

  predicate StrictlyIncreasing(s: seq<int>)
  {
    forall i, j :: 0 <= i < j < |s| ==> s[i] < s[j]
  }

  /** Inserts `x` into a strictly increasing list, keeping it so. */
  function Insert(s: seq<int>, x: int): (r: seq<int>)
    requires StrictlyIncreasing(s)
    ensures StrictlyIncreasing(r)
    ensures forall y :: y in r <==> y in s || y == x
    ensures |r| > 0 && (r[0] == x || (|s| > 0 && r[0] == s[0]))
  {
    if s == [] then [x]
    else if x < s[0] then [x] + s
    else if x == s[0] then s
    else
      var rest := Insert(s[1..], x);
      assert forall y :: y in rest ==> s[0] < y;
      [s[0]] + rest
  }

  /** `Object.keys(counts).map(Number).sort((a, b) => a - b)`: the distinct
      values of `xs`, ascending. */
  function DistinctAscending(xs: seq<int>): (r: seq<int>)
    ensures StrictlyIncreasing(r)
    ensures forall y :: y in r <==> y in xs
  {
    if xs == [] then []
    else
      assert xs == xs[..|xs| - 1] + [xs[|xs| - 1]];
      Insert(DistinctAscending(xs[..|xs| - 1]), xs[|xs| - 1])
  }

  /** The first of `us` that occurs at least twice in `frets`. */
  function FirstRepeated(us: seq<int>, frets: seq<int>): (r: Option<int>)
    ensures r.Some? ==> r.value in us && Count(frets, r.value) >= 2
    ensures r.None? <==> forall u :: u in us ==> Count(frets, u) < 2
  {
    if us == [] then None
    else if Count(frets, us[0]) >= 2 then Some(us[0])
    else
      var rest := FirstRepeated(us[1..], frets);
      assert forall u :: u in us ==> u == us[0] || u in us[1..];
      rest
  }

  /** The first repeated value of an increasing list has no repeated value
      before it. */
  lemma {:induction false} FirstRepeatedIsSmallest(us: seq<int>, frets: seq<int>, u: int)
    requires StrictlyIncreasing(us) && FirstRepeated(us, frets).Some?
    requires u in us && u < FirstRepeated(us, frets).value
    ensures Count(frets, u) < 2
  {
    if Count(frets, us[0]) < 2 && u != us[0] {
      assert u in us[1..] by {
        var i :| 0 <= i < |us| && us[i] == u;
        assert i > 0;
        assert us[1..][i - 1] == u;
      }
      FirstRepeatedIsSmallest(us[1..], frets, u);
    }
  }

  /** The barre `renderChordSVG` detects: the lowest positive fret held on at
      least two strings, spanning from its first to its last string. */
  function BarreOf(frets: seq<int>): Option<BarreBar>
  {
    match FirstRepeated(DistinctAscending(Positives(frets)), frets)
    case None => None
    case Some(f) => Some(BarreBar(f, IndexOf(frets, f), LastIndexOf(frets, f)))
  }

  /** The barre, stated without the scan: there is one exactly when some
      positive fret is held on two strings; it is the lowest such fret, and
      its span runs from the first to the last string holding that fret,
      which are two different strings. */
  lemma BarreOfMeaning(frets: seq<int>)
    ensures BarreOf(frets).None? <==> forall i :: 0 <= i < |frets| && frets[i] > 0 ==> Count(frets, frets[i]) < 2
    ensures BarreOf(frets).Some? ==>
      var b := BarreOf(frets).value;
      && b.fret > 0 && Count(frets, b.fret) >= 2
      && (forall i :: 0 <= i < |frets| && 0 < frets[i] < b.fret ==> Count(frets, frets[i]) < 2)
      && 0 <= b.firstString < b.lastString < |frets|
      && frets[b.firstString] == b.fret && frets[b.lastString] == b.fret
      && (forall i :: 0 <= i < |frets| && frets[i] == b.fret ==> b.firstString <= i <= b.lastString)
  {
    var us := DistinctAscending(Positives(frets));
    var r := FirstRepeated(us, frets);
    if r.None? {
      forall i | 0 <= i < |frets| && frets[i] > 0
        ensures Count(frets, frets[i]) < 2
      {
        assert frets[i] in us;
      }
    } else {
      var f := r.value;
      assert f in Positives(frets);
      forall i | 0 <= i < |frets| && 0 < frets[i] < f
        ensures Count(frets, frets[i]) < 2
      {
        assert frets[i] in us;
        FirstRepeatedIsSmallest(us, frets, frets[i]);
      }
      CountTwice(frets, f);
      var i, j :| 0 <= i < j < |frets| && frets[i] == f && frets[j] == f;
    }
  }

  /** The mark for string `strIdx` holding `fret`: a cross when muted, a
      circle when open, otherwise a dot on its row unless the barre's bar
      already covers it, and nothing outside the five rows shown. */
  function MarkOf(fret: int, strIdx: int, barre: Option<BarreBar>, startOffset: int): Mark
  {
    if fret == -1 then MuteCross
    else if fret == 0 then OpenCircle
    else
      var isBarreNote := barre.Some? && barre.value.fret == fret && barre.value.firstString <= strIdx <= barre.value.lastString;
      var relFret := fret - startOffset;
      if (!isBarreNote || barre.None?) && 0 < relFret <= 5 then Dot(relFret) else NoMark
  }

  /** The first fret shown: one below the lowest positive fret when that is
      above 2, else the nut. */
  function StartOffset(frets: seq<int>): int
  {
    var activeFrets := Positives(frets);
    var minFret := if |activeFrets| > 0 then MinOf(activeFrets) else 0;
    if minFret > 2 then minFret - 1 else 0
  }

  /** The diagram drawn for `frets` once its first row and its barre are
      known. */
  function DiagramWith(frets: seq<int>, startOffset: int, barre: Option<BarreBar>): Diagram
  {
    Diagram(
      startOffset,
      if startOffset > 0 then Some(startOffset + 1) else None,
      barre,
      barre.Some? && 0 < barre.value.fret - startOffset <= 5,
      seq(|frets|, i requires 0 <= i < |frets| => MarkOf(frets[i], i, barre, startOffset)))
  }

  /** The diagram `renderChordSVG(frets)` draws. */
  function DiagramOf(frets: seq<int>): Diagram
  {
    DiagramWith(frets, StartOffset(frets), BarreOf(frets))
  }

  /** The first row shown: the diagram starts at the nut exactly when there
      is no fretted string or one is fretted at 1 or 2; otherwise the lowest
      fret lands on the first row and no fretted string lies above it. */
  lemma StartOffsetMeaning(frets: seq<int>)
    ensures StartOffset(frets) >= 0
    ensures StartOffset(frets) == 0 <==>
      (forall i :: 0 <= i < |frets| ==> frets[i] <= 0) || exists i :: 0 <= i < |frets| && 0 < frets[i] <= 2
    ensures forall i :: 0 <= i < |frets| && frets[i] > 0 ==> frets[i] - StartOffset(frets) >= 1
    ensures StartOffset(frets) > 0 ==> exists i :: 0 <= i < |frets| && frets[i] - StartOffset(frets) == 1
  {
    var p := Positives(frets);
    forall i | 0 <= i < |frets| && frets[i] > 0
      ensures frets[i] in p
    {
    }
    if |p| > 0 {
      var i :| 0 <= i < |frets| && frets[i] == MinOf(p);
    }
  }

  /** No fretted note within the five rows shown is lost: it gets a dot on
      its row, or it lies under the drawn bar of the barre. */
  lemma EveryShownNoteIsDrawn(frets: seq<int>, i: int)
    requires 0 <= i < |frets| && frets[i] > 0 && frets[i] - StartOffset(frets) <= 5
    ensures var d := DiagramOf(frets);
      || d.marks[i] == Dot(frets[i] - d.startOffset)
      || (d.barreDrawn && d.barre.value.fret == frets[i] && d.barre.value.firstString <= i <= d.barre.value.lastString)
  {
    StartOffsetMeaning(frets);
  }

  /** The mark of each string, by what it holds. */
  lemma MarksMeaning(frets: seq<int>, i: int)
    requires 0 <= i < |frets|
    ensures var d := DiagramOf(frets);
      && |d.marks| == |frets|
      && (d.marks[i] == MuteCross <==> frets[i] == -1)
      && (d.marks[i] == OpenCircle <==> frets[i] == 0)
      && (d.marks[i].Dot? ==> frets[i] > 0 && d.marks[i].row == frets[i] - d.startOffset && 1 <= d.marks[i].row <= 5)
  {
  }

  /** The three shapes the examples below draw, as stored. */
  lemma ExampleShapes()
    ensures "C" in ChordShapes && ChordShapes["C"].major == [-1, 3, 2, 0, 1, 0]
    ensures "F" in ChordShapes && ChordShapes["F"].major == [1, 3, 3, 2, 1, 1]
    ensures "Eb" in ChordShapes && ChordShapes["Eb"].major == [-1, 6, 8, 8, 8, 6]
  {
  }

  /** The open C shape starts at the nut. */
  lemma OpenCStart(frets: seq<int>)
    requires frets == [-1, 3, 2, 0, 1, 0]
    ensures StartOffset(frets) == 0
  {
    StartOffsetMeaning(frets);
    assert 0 < frets[4] <= 2;
  }

  /** The open C shape has no barre: no fret is held on two strings. */
  lemma OpenCBarre(frets: seq<int>)
    requires frets == [-1, 3, 2, 0, 1, 0]
    ensures BarreOf(frets).None?
  {
    BarreOfMeaning(frets);
    assert multiset(frets) == multiset{-1, 3, 2, 0, 1, 0};
    assert Count(frets, 3) == 1 && Count(frets, 2) == 1 && Count(frets, 1) == 1;
  }

  /** The marks of the open C shape at the nut without a barre. */
  lemma OpenCMarks(frets: seq<int>)
    requires frets == [-1, 3, 2, 0, 1, 0]
    ensures DiagramWith(frets, 0, None) ==
      Diagram(0, None, None, false, [MuteCross, Dot(3), Dot(2), OpenCircle, Dot(1), OpenCircle])
  {
    var marks := [MuteCross, Dot(3), Dot(2), OpenCircle, Dot(1), OpenCircle];
    forall i | 0 <= i < |frets|
      ensures marks[i] == MarkOf(frets[i], i, None, 0)
    {
    }
    DiagramWithParts(frets, 0, None, false, marks);
  }

  /** The open C shape (`ChordShapes["C"].major`): three dots, two open
      strings and a muted low E. */
  lemma OpenCDiagram(frets: seq<int>)
    requires frets == [-1, 3, 2, 0, 1, 0]
    ensures DiagramOf(frets) ==
      Diagram(0, None, None, false, [MuteCross, Dot(3), Dot(2), OpenCircle, Dot(1), OpenCircle])
  {
    OpenCStart(frets);
    OpenCBarre(frets);
    OpenCMarks(frets);
  }

  /** F major starts at the nut. */
  lemma FMajorStart(frets: seq<int>)
    requires frets == [1, 3, 3, 2, 1, 1]
    ensures StartOffset(frets) == 0
  {
    StartOffsetMeaning(frets);
    assert 0 < frets[0] <= 2;
  }

  /** F major has a barre over all six strings at fret 1. */
  lemma FMajorBarre(frets: seq<int>)
    requires frets == [1, 3, 3, 2, 1, 1]
    ensures BarreOf(frets) == Some(BarreBar(1, 0, 5))
  {
    assert multiset(frets) == multiset{1, 3, 3, 2, 1, 1};
    assert Count(frets, frets[0]) == 3;
    BarreOfMeaning(frets);
    var b := BarreOf(frets).value;
    assert b.fret <= frets[0];
    assert b.fret == 1;
    assert b.firstString <= 0 && b.lastString >= 5;
  }

  /** The marks of F major once its barre is known: the barre's notes get no
      dots. */
  lemma FMajorMarks(frets: seq<int>)
    requires frets == [1, 3, 3, 2, 1, 1]
    ensures DiagramWith(frets, 0, Some(BarreBar(1, 0, 5))) ==
      Diagram(0, None, Some(BarreBar(1, 0, 5)), true, [NoMark, Dot(3), Dot(3), Dot(2), NoMark, NoMark])
  {
    var marks := [NoMark, Dot(3), Dot(3), Dot(2), NoMark, NoMark];
    forall i | 0 <= i < |frets|
      ensures marks[i] == MarkOf(frets[i], i, Some(BarreBar(1, 0, 5)), 0)
    {
    }
    DiagramWithParts(frets, 0, Some(BarreBar(1, 0, 5)), true, marks);
  }

  /** F major (`ChordShapes["F"].major`): a full barre on the first fret. */
  lemma FMajorDiagram(frets: seq<int>)
    requires frets == [1, 3, 3, 2, 1, 1]
    ensures DiagramOf(frets) ==
      Diagram(0, None, Some(BarreBar(1, 0, 5)), true, [NoMark, Dot(3), Dot(3), Dot(2), NoMark, NoMark])
  {
    FMajorStart(frets);
    FMajorBarre(frets);
    FMajorMarks(frets);
  }

  /** E flat major starts at fret 6: the first row shown is fret 6. */
  lemma EFlatMajorStart(frets: seq<int>)
    requires frets == [-1, 6, 8, 8, 8, 6]
    ensures StartOffset(frets) == 5
  {
    StartOffsetMeaning(frets);
    assert forall i :: 0 <= i < |frets| && frets[i] > 0 ==> frets[i] == 6 || frets[i] == 8;
    assert frets[1] - StartOffset(frets) >= 1;
  }

  /** E flat major has a barre at fret 6 from the A string up. */
  lemma EFlatMajorBarre(frets: seq<int>)
    requires frets == [-1, 6, 8, 8, 8, 6]
    ensures BarreOf(frets) == Some(BarreBar(6, 1, 5))
  {
    assert multiset(frets) == multiset{-1, 6, 8, 8, 8, 6};
    assert Count(frets, frets[1]) == 2;
    BarreOfMeaning(frets);
    var b := BarreOf(frets).value;
    assert b.fret <= frets[1];
    assert frets[b.firstString] == b.fret;
    assert b.fret == 6;
    assert b.firstString <= 1 && b.lastString >= 5;
  }

  /** E flat major (`ChordShapes["Eb"].major`) sits high on the neck: the
      diagram starts at fret 6, printed beside the grid, with the barre on its
      first row. */
  lemma EFlatMajorDiagram(frets: seq<int>)
    requires frets == [-1, 6, 8, 8, 8, 6]
    ensures DiagramOf(frets) ==
      Diagram(5, Some(6), Some(BarreBar(6, 1, 5)), true, [MuteCross, NoMark, Dot(3), Dot(3), Dot(3), NoMark])
  {
    EFlatMajorStart(frets);
    EFlatMajorBarre(frets);
    EFlatMajorMarks(frets);
  }

  /** The marks of E flat major once its first row and barre are known. */
  lemma EFlatMajorMarks(frets: seq<int>)
    requires frets == [-1, 6, 8, 8, 8, 6]
    ensures DiagramWith(frets, 5, Some(BarreBar(6, 1, 5))) ==
      Diagram(5, Some(6), Some(BarreBar(6, 1, 5)), true, [MuteCross, NoMark, Dot(3), Dot(3), Dot(3), NoMark])
  {
    var marks := [MuteCross, NoMark, Dot(3), Dot(3), Dot(3), NoMark];
    forall i | 0 <= i < |frets|
      ensures marks[i] == MarkOf(frets[i], i, Some(BarreBar(6, 1, 5)), 5)
    {
    }
    DiagramWithParts(frets, 5, Some(BarreBar(6, 1, 5)), true, marks);
  }

  /** `renderChordSVG(frets)`: the discrete decisions, computed the way the
      source does (filter, minimum, a `counts` table, a scan of the sorted
      distinct frets that stops at the first repeated one, then one mark per
      string). */
  method RenderChordDiagram(frets: seq<int>) returns (d: Diagram)
    ensures d == DiagramOf(frets)
  {
    var activeFrets := Positives(frets);
    var minFret := if |activeFrets| > 0 then MinOf(activeFrets) else 0;
    var startOffset := 0;
    if minFret > 2 {
      startOffset := minFret - 1;
    }

    var counts := CountFrets(activeFrets);
    var barre := FindBarre(frets, counts);

    var barreDrawn := false;
    if barre.Some? && barre.value.fret > 0 {
      var relFret := barre.value.fret - startOffset;
      if relFret > 0 && relFret <= 5 {
        barreDrawn := true;
      }
    }

    var marks := DrawMarks(frets, barre, startOffset);
    d := Diagram(startOffset, if startOffset > 0 then Some(startOffset + 1) else None, barre, barreDrawn, marks);
    DiagramWithParts(frets, startOffset, barre, barreDrawn, marks);
  }

  /** The `counts` table of `renderChordSVG`: how often each fret occurs. */
  method CountFrets(activeFrets: seq<int>) returns (counts: map<int, int>)
    ensures forall v :: v in counts <==> v in activeFrets
    ensures forall v :: v in counts ==> counts[v] == Count(activeFrets, v)
  {
    counts := map[];
    for i := 0 to |activeFrets|
      invariant forall v :: v in counts <==> v in activeFrets[..i]
      invariant forall v :: v in counts ==> counts[v] == Count(activeFrets[..i], v)
    {
      var f := activeFrets[i];
      assert activeFrets[..i + 1] == activeFrets[..i] + [f];
      counts := counts[f := (if f in counts then counts[f] else 0) + 1];
    }
    assert activeFrets[..|activeFrets|] == activeFrets;
  }

  /** The barre scan of `renderChordSVG`: the sorted distinct frets are tried
      in turn and the first one counted twice gives the barre, spanning from
      its first to its last string. */
  method FindBarre(frets: seq<int>, counts: map<int, int>) returns (barre: Option<BarreBar>)
    requires forall v :: v in counts <==> v in Positives(frets)
    requires forall v :: v in counts ==> counts[v] == Count(Positives(frets), v)
    ensures barre == BarreOf(frets)
    ensures barre.Some? ==> barre.value.fret > 0
  {
    barre := None;
    var uniqueFrets := DistinctAscending(Positives(frets));
    var j := 0;
    while j < |uniqueFrets|
      invariant 0 <= j <= |uniqueFrets|
      invariant FirstRepeated(uniqueFrets, frets) == FirstRepeated(uniqueFrets[j..], frets)
      invariant barre.None?
    {
      var f := uniqueFrets[j];
      assert f in Positives(frets);
      CountPositive(frets, f);
      if counts[f] >= 2 {
        barre := Some(BarreBar(f, IndexOf(frets, f), LastIndexOf(frets, f)));
        break;
      }
      assert uniqueFrets[j..][1..] == uniqueFrets[j + 1..];
      j := j + 1;
    }
  }

  /** The per-string loop of `renderChordSVG`. */
  method DrawMarks(frets: seq<int>, barre: Option<BarreBar>, startOffset: int) returns (marks: seq<Mark>)
    ensures |marks| == |frets|
    ensures forall i :: 0 <= i < |frets| ==> marks[i] == MarkOf(frets[i], i, barre, startOffset)
  {
    marks := [];
    for strIdx := 0 to |frets|
      invariant |marks| == strIdx
      invariant forall i :: 0 <= i < strIdx ==> marks[i] == MarkOf(frets[i], i, barre, startOffset)
    {
      marks := marks + [MarkOf(frets[strIdx], strIdx, barre, startOffset)];
    }
  }

  /** `DiagramWith`, assembled from separately computed parts. */
  lemma DiagramWithParts(frets: seq<int>, startOffset: int, barre: Option<BarreBar>, barreDrawn: bool, marks: seq<Mark>)
    requires barreDrawn <==> barre.Some? && 0 < barre.value.fret - startOffset <= 5
    requires |marks| == |frets| && forall i :: 0 <= i < |frets| ==> marks[i] == MarkOf(frets[i], i, barre, startOffset)
    ensures DiagramWith(frets, startOffset, barre) == Diagram(startOffset, if startOffset > 0 then Some(startOffset + 1) else None, barre, barreDrawn, marks)
  {
  }

  /** `createChordCard(variant, note, type)`: the diagram of the stored
      shape (both variants draw the same one), or none for the "?" card. */
  method CreateChordCard(note: string, t: ChordType) returns (card: Option<Diagram>)
    ensures note !in ChordShapes <==> card.None?
    ensures card.Some? ==> card.value == DiagramOf(ChordShapes[note].Of(t))
  {
    if note !in ChordShapes {
      return None;
    }
    var frets := ChordShapes[note].Of(t);
    var svg := RenderChordDiagram(frets);
    return Some(svg);
  }

  // ---------------------------------------------------------------- rotation

  /** `delta` after the two wrapping steps of `onDrag`. For the difference of
      two `atan2` angles it lands in [-180, 180] and differs from the raw
      difference by a whole turn at most. */
  function WrapDelta(delta: real): (r: real)
    ensures r == delta || r == delta - 360.0 || r == delta + 360.0
    ensures -540.0 <= delta <= 540.0 ==> -180.0 <= r <= 180.0
  {
    var d := if delta > 180.0 then delta - 360.0 else delta;
    if d < -180.0 then d + 360.0 else d
  }

  /** `currentRotation += e.deltaY * 0.1` in `onScroll`: the wheel turns by
      a tenth of a degree per unit of scroll, clockwise for a positive delta. */
  function ScrollRotation(rotation: real, deltaY: real): (r: real)
    ensures (r - rotation) * 10.0 == deltaY
    ensures r > rotation <==> deltaY > 0.0
  {
    rotation + deltaY * 0.1
  }

  /** Two scroll events turn the wheel as far as one event of their summed
      delta. */
  lemma ScrollsAccumulate(rotation: real, d1: real, d2: real)
    ensures ScrollRotation(ScrollRotation(rotation, d1), d2) == ScrollRotation(rotation, d1 + d2)
  {
  }

  /** `Math.round(rotation / 30) * 30`: the nearest multiple of 30, halves
      going up. */
  function SnapTarget(rotation: real): (target: real)
    ensures rotation - 15.0 < target <= rotation + 15.0
    ensures target == 30.0 * (target / 30.0).Floor as real
  {
    30.0 * Round(rotation / 30.0) as real
  }

  /** Snapping an already snapped rotation keeps it. */
  lemma SnapIdempotent(rotation: real)
    ensures SnapTarget(SnapTarget(rotation)) == SnapTarget(rotation)
  {
    var t := SnapTarget(rotation);
    var k := Round(rotation / 30.0);
    assert t / 30.0 == k as real;
    assert Round(t / 30.0) == k;
  }

  /** A snap animation in flight: where it started and where it ends. */
  datatype Snap = Snap(start: real, target: real)

  /** The wheel's rotation state and its pending snap work. */
  class WheelState {
    var currentRotation: real
    var isDragging: bool
    var startAngle: real
    var startRotation: real
    /** The running snap animation (`snapRequest`), if any. */
    var snap: Option<Snap>
    /** Whether `window.scrollSnapTimer` is pending. */
    var scrollSnapArmed: bool

    /** A running snap heads for the nearest multiple of 30 of where it
        started. */
    ghost predicate Valid()
      reads this
    {
      snap.Some? ==> snap.value.target == SnapTarget(snap.value.start)
    }

    constructor ()
      ensures Valid()
      ensures currentRotation == 0.0 && !isDragging && startAngle == 0.0 && startRotation == 0.0
      ensures snap.None? && !scrollSnapArmed
    {
      currentRotation := 0.0;
      isDragging := false;
      startAngle := 0.0;
      startRotation := 0.0;
      snap := None;
      scrollSnapArmed := false;
    }

    /** `startDrag`: cancels a running snap and remembers where the drag
        starts; a pending scroll timer is left armed. */
    method StartDrag(angle: real)
      requires Valid()
      modifies this
      ensures Valid()
      ensures isDragging && snap.None? && startAngle == angle && startRotation == currentRotation
      ensures currentRotation == old(currentRotation) && scrollSnapArmed == old(scrollSnapArmed)
    {
      isDragging := true;
      snap := None;
      startAngle := angle;
      startRotation := currentRotation;
    }

    /** `onDrag`: outside a drag nothing changes; during one the wheel turns
        by the wrapped angle travelled since the drag started. */
    method OnDrag(angle: real)
      requires Valid()
      modifies this
      ensures Valid()
      ensures !old(isDragging) ==> currentRotation == old(currentRotation)
      ensures old(isDragging) ==> currentRotation == startRotation + WrapDelta(angle - startAngle)
      ensures old(isDragging) && -180.0 < angle <= 180.0 && -180.0 < startAngle <= 180.0 ==>
        -180.0 <= currentRotation - startRotation <= 180.0
      ensures isDragging == old(isDragging) && startAngle == old(startAngle) && startRotation == old(startRotation)
      ensures snap == old(snap) && scrollSnapArmed == old(scrollSnapArmed)
    {
      if !isDragging {
        return;
      }
      var delta := WrapDelta(angle - startAngle);
      currentRotation := startRotation + delta;
    }

    /** `scheduleSnap`: starts an animation toward the nearest multiple of 30. */
    method ScheduleSnap()
      requires Valid()
      modifies this
      ensures Valid()
      ensures snap == Some(Snap(currentRotation, SnapTarget(currentRotation)))
      ensures currentRotation == old(currentRotation) && isDragging == old(isDragging)
      ensures startAngle == old(startAngle) && startRotation == old(startRotation)
      ensures scrollSnapArmed == old(scrollSnapArmed)
    {
      var target := SnapTarget(currentRotation);
      snap := Some(Snap(currentRotation, target));
    }

    /** `endDrag`: the drag ends and the snap starts. */
    method EndDrag()
      requires Valid()
      modifies this
      ensures Valid()
      ensures !isDragging && snap == Some(Snap(currentRotation, SnapTarget(currentRotation)))
      ensures currentRotation == old(currentRotation) && scrollSnapArmed == old(scrollSnapArmed)
      ensures startAngle == old(startAngle) && startRotation == old(startRotation)
    {
      isDragging := false;
      ScheduleSnap();
    }

    /** `onScroll`: turns by a tenth of the wheel delta, cancels a running
        snap and re-arms the 200 ms snap timer. */
    method OnScroll(deltaY: real)
      requires Valid()
      modifies this
      ensures Valid()
      ensures currentRotation == old(currentRotation) + deltaY * 0.1
      ensures currentRotation == ScrollRotation(old(currentRotation), deltaY)
      ensures snap.None? && scrollSnapArmed
      ensures isDragging == old(isDragging) && startAngle == old(startAngle) && startRotation == old(startRotation)
    {
      currentRotation := currentRotation + deltaY * 0.1;
      snap := None;
      scrollSnapArmed := true;
    }

    /** The scroll timer fires and schedules a snap (even during a drag,
        since `startDrag` does not clear it). */
    method ScrollTimerFires()
      requires Valid() && scrollSnapArmed
      modifies this
      ensures Valid()
      ensures !scrollSnapArmed && snap == Some(Snap(currentRotation, SnapTarget(currentRotation)))
      ensures currentRotation == old(currentRotation) && isDragging == old(isDragging)
      ensures startAngle == old(startAngle) && startRotation == old(startRotation)
    {
      scrollSnapArmed := false;
      ScheduleSnap();
    }

    /** One animation frame `elapsed` ms after the snap was scheduled: from
        400 ms on the wheel sits on the target and the animation stops;
        before that it is eased (`ease` stands for `1 - (1 - r)^3`). */
    method SnapFrame(elapsed: real, ease: real -> real)
      requires Valid() && snap.Some?
      modifies this
      ensures Valid()
      ensures elapsed >= 400.0 ==> currentRotation == old(snap.value.target) && snap.None?
      ensures elapsed >= 400.0 ==> currentRotation == 30.0 * (currentRotation / 30.0).Floor as real
      ensures elapsed < 400.0 ==> snap == old(snap)
      ensures elapsed < 400.0 ==>
        currentRotation == old(snap.value.start) + (old(snap.value.target) - old(snap.value.start)) * ease(elapsed / 400.0)
      ensures isDragging == old(isDragging) && startAngle == old(startAngle) && startRotation == old(startRotation)
      ensures scrollSnapArmed == old(scrollSnapArmed)
    {
      var s := snap.value;
      if elapsed >= 400.0 {
        currentRotation := s.target;
        snap := None;
        return;
      }
      var ratio := elapsed / 400.0;
      currentRotation := s.start + (s.target - s.start) * ease(ratio);
    }
  }
}
