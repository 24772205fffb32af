/**
 * The first version of the circle-of-fifths wheel (the root script.js). Its
 * hover, label, tooltip and rotation logic is written out again here as that
 * file has it, and each piece is shown to decide exactly what the later
 * music-wheel version (module Wheel) decides, so every property proved there
 * holds for this version too. Its chord card differs: it is a fixed mock
 * picture that ignores the chord.
 */
module LegacyWheel {
  import opened Options
  import opened JsSemantics
  import Wheel

  const Segments: int := 12

  const Keys: seq<string> := ["C", "G", "D", "A", "E", "B", "Gb", "Db", "Ab", "Eb", "Bb", "F"]

  const RingConfig: seq<Wheel.Ring> := [
    Wheel.Ring("dim", 330.0, 250.0, 5, Wheel.Dim),
    Wheel.Ring("minor", 250.0, 170.0, 3, Wheel.Minor),
    Wheel.Ring("major", 170.0, 90.0, 0, Wheel.Major)]

  /** Both versions use the same keys and the same rings. */
  lemma SameConfiguration()
    ensures Keys == Wheel.Keys && RingConfig == Wheel.RingConfig && Segments == Wheel.Segments
  {
  }

  /** `(i + ring.offset) % SEGMENTS` lifted when negative, as `drawWheel`
      and `onMouseMove` compute it. */
  function KeyIndex(slot: int, offset: int): (k: int)
    ensures 0 <= k < Segments
  {
    var noteIdx := IntRem(slot + offset, Segments);
    if noteIdx < 0 then noteIdx + Segments else noteIdx
  }

  /** The key index agrees with the music-wheel version, and for the twelve
      slots and three ring offsets the lifting branch is dead. */
  lemma KeyIndexAgrees(slot: int, offset: int)
    ensures KeyIndex(slot, offset) == Wheel.KeyIndex(slot, offset)
    ensures 0 <= slot < Segments && 0 <= offset ==> IntRem(slot + offset, Segments) >= 0
  {
    RemTwelveNormalised(slot + offset);
  }

  /** The ring index under radius `rSVG` (0 dim, 1 minor, 2 major), or -1. */
  function RingAt(rSVG: real): (i: int)
    ensures -1 <= i < |RingConfig|
    ensures i == 0 <==> 250.0 < rSVG < 330.0
    ensures i == 1 <==> 170.0 < rSVG < 250.0
    ensures i == 2 <==> 90.0 < rSVG < 170.0
  {
    if rSVG > 250.0 && rSVG < 330.0 then 0
    else if rSVG > 170.0 && rSVG < 250.0 then 1
    else if rSVG > 90.0 && rSVG < 170.0 then 2
    else -1
  }

  /** The ring boundaries themselves hit nothing. */
  lemma BoundariesHitNothing()
    ensures RingAt(90.0) == -1 && RingAt(170.0) == -1 && RingAt(250.0) == -1 && RingAt(330.0) == -1
  {
  }

  /** The slot under the cursor: the virtual angle is brought into
      [0, 360), shifted by 105 and cut into 30 degree sectors. */
  function SlotAt(angleDeg: real, rotation: real): (s: int)
    ensures 0 <= s < Segments
  {
    var virtualAngle := Rem360(angleDeg - rotation);
    var virtualAngle := if virtualAngle < 0.0 then virtualAngle + 360.0 else virtualAngle;
    var shiftedAngle := Rem360(virtualAngle + 105.0);
    (shiftedAngle / 30.0).Floor
  }

  /** The slot agrees with the music-wheel version. */
  lemma SlotAgrees(angleDeg: real, rotation: real)
    ensures SlotAt(angleDeg, rotation) == Wheel.SlotAt(angleDeg, rotation)
  {
    Wheel.RemIsMod(angleDeg - rotation);
  }

  /** `fullChordName` in `onMouseMove`. */
  function HoverName(note: string, t: Wheel.ChordType): (name: string)
    ensures note <= name
    ensures name == note <==> t == Wheel.Major
    ensures name == note + "m" <==> t == Wheel.Minor
  {
    var suffix := if t == Wheel.Major then "" else if t == Wheel.Minor then "m" else "°";
    assert (note + suffix)[|note|..] == suffix;
    note + suffix
  }

  /** The segment label of `drawWheel`. */
  function WheelLabel(note: string, t: Wheel.ChordType): (text: string)
    ensures note <= text
    ensures text == note <==> t == Wheel.Major
    ensures text == note + "m" <==> t == Wheel.Minor
  {
    var text := note;
    var text := if t == Wheel.Minor then text + "m" else text;
    var text := if t == Wheel.Dim then text + "°" else text;
    assert text[|note|..] == (if t == Wheel.Major then "" else if t == Wheel.Minor then "m" else "°");
    text
  }

  /** Labels and hover names agree with each other and with the music-wheel
      version: the key alone for major, then "m" or "°". */
  lemma NamesAgree(note: string, t: Wheel.ChordType)
    ensures HoverName(note, t) == WheelLabel(note, t) == Wheel.WheelLabel(note, t)
    ensures t == Wheel.Major ==> HoverName(note, t) == note
    ensures t == Wheel.Minor ==> HoverName(note, t) == note + "m"
    ensures t == Wheel.Dim ==> HoverName(note, t) == note + "°"
  {
  }

  /** `onMouseMove`: the chord under the cursor, or nothing during a drag
      or off the rings. */
  function Hover(isDragging: bool, rSVG: real, angleDeg: real, rotation: real): (r: Option<(string, Wheel.ChordType)>)
    ensures r.Some? <==> !isDragging && RingAt(rSVG) >= 0
  {
    if isDragging then None
    else
      var slotIndex := SlotAt(angleDeg, rotation);
      var ringIdx := RingAt(rSVG);
      if ringIdx < 0 then None
      else
        var ring := RingConfig[ringIdx];
        var validNoteIdx := KeyIndex(slotIndex, ring.offset);
        Some((Keys[validNoteIdx], ring.chordType))
  }

  /** The legacy hover finds the same chord as the music-wheel version. */
  lemma HoverAgrees(isDragging: bool, rSVG: real, angleDeg: real, rotation: real)
    ensures Hover(isDragging, rSVG, angleDeg, rotation) == Wheel.Hover(isDragging, rSVG, angleDeg, rotation)
  {
    SlotAgrees(angleDeg, rotation);
    var s := SlotAt(angleDeg, rotation);
    KeyIndexAgrees(s, 0);
    KeyIndexAgrees(s, 3);
    KeyIndexAgrees(s, 5);
  }

  /** The tooltip's left and top: `Math.min(window.innerWidth - 300,
      Math.max(10, x + 20))` and likewise with 200 for the height. */
  function TooltipPosition(x: real, y: real, innerWidth: real, innerHeight: real): (pos: (real, real))
    ensures pos.0 <= innerWidth - 300.0 && pos.1 <= innerHeight - 200.0
    ensures innerWidth >= 310.0 ==> pos.0 >= 10.0
    ensures innerHeight >= 210.0 ==> pos.1 >= 10.0
    ensures 10.0 <= x + 20.0 <= innerWidth - 300.0 ==> pos.0 == x + 20.0
    ensures x + 20.0 > innerWidth - 300.0 ==> pos.0 == innerWidth - 300.0
    ensures x + 20.0 < 10.0 <= innerWidth - 300.0 ==> pos.0 == 10.0
    ensures 10.0 <= y + 20.0 <= innerHeight - 200.0 ==> pos.1 == y + 20.0
    ensures y + 20.0 > innerHeight - 200.0 ==> pos.1 == innerHeight - 200.0
    ensures y + 20.0 < 10.0 <= innerHeight - 200.0 ==> pos.1 == 10.0
  {
    var tx := if 10.0 > x + 20.0 then 10.0 else x + 20.0;
    var tx := if innerWidth - 300.0 < tx then innerWidth - 300.0 else tx;
    var ty := if 10.0 > y + 20.0 then 10.0 else y + 20.0;
    var ty := if innerHeight - 200.0 < ty then innerHeight - 200.0 else ty;
    (tx, ty)
  }

  /** The tooltip lands where the music-wheel version puts it, so it keeps 10
      from the top left edges when the window is large enough and sits 20
      past the cursor when that fits. */
  lemma TooltipAgrees(x: real, y: real, innerWidth: real, innerHeight: real)
    ensures TooltipPosition(x, y, innerWidth, innerHeight) == Wheel.TooltipPosition(x, y, innerWidth, innerHeight)
    ensures innerWidth >= 310.0 ==> TooltipPosition(x, y, innerWidth, innerHeight).0 >= 10.0
    ensures 10.0 <= x + 20.0 <= innerWidth - 300.0 ==> TooltipPosition(x, y, innerWidth, innerHeight).0 == x + 20.0
  {
  }

  /** `onScroll`: the rotation after one wheel event of `deltaY`. */
  function ScrollRotation(rotation: real, deltaY: real): (r: real)
    ensures r > rotation <==> deltaY > 0.0
  {
    rotation + deltaY * 0.1
  }

  /** The root script's scroll handler turns the wheel exactly as the
      music-wheel handler does (`Wheel.WheelState.OnScroll`). */
  lemma ScrollAgrees(rotation: real, deltaY: real)
    ensures ScrollRotation(rotation, deltaY) == Wheel.ScrollRotation(rotation, deltaY)
    ensures (ScrollRotation(rotation, deltaY) - rotation) * 10.0 == deltaY
  {
  }

  /** `onDrag`: the rotation after dragging from `startAngle` to `angle`. */
  function DragRotation(startRotation: real, startAngle: real, angle: real): (rotation: real)
    ensures -180.0 < angle <= 180.0 && -180.0 < startAngle <= 180.0 ==>
      -180.0 <= rotation - startRotation <= 180.0
  {
    var delta := angle - startAngle;
    var delta := if delta > 180.0 then delta - 360.0 else delta;
    var delta := if delta < -180.0 then delta + 360.0 else delta;
    startRotation + delta
  }

  /** The drag rotation is the music-wheel one. */
  lemma DragAgrees(startRotation: real, startAngle: real, angle: real)
    ensures DragRotation(startRotation, startAngle, angle) == startRotation + Wheel.WrapDelta(angle - startAngle)
  {
  }

  /** `scheduleSnap`'s target, `Math.round(currentRotation / 30) * 30`. */
  function SnapTarget(rotation: real): (target: real)
    ensures target == 30.0 * (target / 30.0).Floor as real
  {
    30.0 * Round(rotation / 30.0) as real
  }

  /** The rotation an animation frame sets `dt` ms after the snap started:
      the target from 400 ms on, the eased value before. */
  function SnapFrame(start: real, dt: real, ease: real -> real): real
  {
    var target := SnapTarget(start);
    if dt >= 400.0 then target else start + (target - start) * ease(dt / 400.0)
  }

  /** The snap ends on the music-wheel target: a multiple of 30 at most 15
      degrees away, reached once 400 ms have passed. */
  lemma SnapAgrees(start: real, dt: real, ease: real -> real)
    ensures SnapTarget(start) == Wheel.SnapTarget(start)
    ensures dt >= 400.0 ==> SnapFrame(start, dt, ease) == Wheel.SnapTarget(start)
    ensures dt >= 400.0 ==> start - 15.0 < SnapFrame(start, dt, ease) <= start + 15.0
  {
  }

  /** The picture `createChordCard` draws: a fixed grid with three dots and,
      for the "Barre" variant only, a bar across the first fret. */
  datatype MockCard = MockCard(variant: string, barreBar: bool, dotRows: seq<int>)

  /** `createChordCard(variant, note, type)`: the same mock picture for every
      chord; only the variant changes the bar and the dot rows. */
  function ChordCard(variant: string, note: string, t: Wheel.ChordType): (card: MockCard)
    ensures card.barreBar <==> variant == "Barre"
    ensures |card.dotRows| == 3
  {
    MockCard(variant, variant == "Barre",
      [if variant == "Open" then 22 else 46, if variant == "Open" then 34 else 46, 34])
  }

  /** The card does not depend on the chord at all: two chords get the same
      picture. This is where this version differs from the music-wheel one,
      which draws each chord's stored shape. */
  lemma CardIgnoresChord(variant: string, n1: string, t1: Wheel.ChordType, n2: string, t2: Wheel.ChordType)
    ensures ChordCard(variant, n1, t1) == ChordCard(variant, n2, t2)
  {
  }
}
