/**
 * The guitar tuner's pitch pipeline (tuner/script.js): the noise gate and edge
 * trim of a 4096-sample frame, the autocorrelation over lags 30..799, the
 * first-peak / highest-peak lag choice with parabolic refinement, the note
 * matcher, and the stability state machine that rings the "in tune" chime.
 *
 * Samples and correlations are reals, not 32/64-bit floats. `Math.log2` is
 * not interpreted: the tuner session receives it as a function parameter.
 */
module Tuner {
  import opened Options
  import opened JsSemantics

  // ---------------------------------------------------------------------
  // Configuration (tuner/script.js:7-14, 350-360, 374)
  // ---------------------------------------------------------------------

  const BufferSize: nat := 4096
  /** Smallest lag the correlation scan evaluates. */
  const MinLag: nat := 30
  /** One past the largest lag the correlation scan evaluates. */
  const LagLimit: nat := 800
  /** Samples quieter than this (in absolute value) end the edge trim. */
  const TrimThreshold: real := 0.2
  /** The square of the RMS gate 0.01: the gate compares mean squares. */
  const GateMeanSquare: real := 0.0001
  const TunedTolerance: real := 5.0
  const StableDuration: real := 400.0

  // ---------------------------------------------------------------------
  // The reference strings (tuner/script.js:34-41)
  // ---------------------------------------------------------------------

  /** A target string: its name, target frequency and inclusive acceptance window, in Hz. */
  datatype GuitarString = GuitarString(note: string, freq: real, min: real, max: real)

  const GuitarStrings: seq<GuitarString> := [
    GuitarString("E2", 82.41, 70.0, 95.0),
    GuitarString("A2", 110.00, 95.0, 125.0),
    GuitarString("D3", 146.83, 130.0, 165.0),
    GuitarString("G3", 196.00, 175.0, 215.0),
    GuitarString("B3", 246.94, 225.0, 270.0),
    GuitarString("E4", 329.63, 300.0, 360.0)
  ]

  /** An index into `GuitarStrings`, in the table's order E2, A2, D3, G3, B3, E4. */
  type StringIndex = i: int | 0 <= i < 6

  predicate InWindow(freq: real, i: StringIndex)
  {
    GuitarStrings[i].min <= freq <= GuitarStrings[i].max
  }

  /** Every target lies strictly inside its own window. */
  lemma TargetsInsideWindows(i: StringIndex)
    ensures GuitarStrings[i].min < GuitarStrings[i].freq < GuitarStrings[i].max
    ensures InWindow(GuitarStrings[i].freq, i)
  {
  }

  /** The windows are disjoint except that E2 and A2 share their common bound 95 Hz. */
  lemma {:induction false} WindowsOverlapOnlyAt95(freq: real, i: StringIndex, j: StringIndex)
    requires i < j && InWindow(freq, i) && InWindow(freq, j)
    ensures i == 0 && j == 1 && freq == 95.0
  {
  }

  // ---------------------------------------------------------------------
  // Noise gate (tuner/script.js:343-346)
  // ---------------------------------------------------------------------

  /** The sum of squares of `s`, accumulated from the front as the source's loops do. */
  function SumSq(s: seq<real>): (r: real)
    ensures r >= 0.0
  {
    if s == [] then 0.0 else SumSq(s[..|s| - 1]) + s[|s| - 1] * s[|s| - 1]
  }

  /** The gate's verdict: the RMS of the frame is below 0.01. */
  predicate Silent(s: seq<real>)
  {
    SumSq(s) < GateMeanSquare * |s| as real
  }

  /** Comparing mean squares is comparing the RMS itself: for the non-negative
      square root `rms` of `sum / n`, `rms < 0.01` exactly when `sum < 0.0001 * n`. */
  lemma GateIsRmsTest(sum: real, n: nat, rms: real)
    requires n > 0 && rms >= 0.0 && rms * rms == sum / n as real
    ensures rms < 0.01 <==> sum < GateMeanSquare * n as real
  {
    var m := rms * rms;
    assert sum == m * n as real;
    assert rms < 0.01 <==> m < GateMeanSquare by {
      if rms < 0.01 {
        MulMonotone(rms, rms, 0.01);
      } else {
        MulMonotone(rms, 0.01, rms);
      }
    }
    assert m < GateMeanSquare <==> m * n as real < GateMeanSquare * n as real;
  }

  lemma MulMonotone(a: real, x: real, y: real)
    requires a >= 0.0 && x <= y
    ensures a * x <= a * y
  {
    assert a * y - a * x == a * (y - x);
  }

  /** One pass over a sample sequence accumulating squares (the RMS loop, and the
      lag-0 energy `maxVal`). */
  method SumOfSquares(s: seq<real>) returns (sum: real)
    ensures sum == SumSq(s)
  {
    sum := 0.0;
    var i := 0;
    while i < |s|
      invariant 0 <= i <= |s|
      invariant sum == SumSq(s[..i])
    {
      assert s[..i + 1][..i] == s[..i];
      sum := sum + s[i] * s[i];
      i := i + 1;
    }
    assert s[..|s|] == s;
  }

  // ---------------------------------------------------------------------
  // Edge trim (tuner/script.js:350-354)
  // ---------------------------------------------------------------------

  predicate Quiet(x: real) { Abs(x) < TrimThreshold }

  /** The first index in `[i, bound)` holding a quiet sample, or `bound` if none does. */
  function FirstQuietFrom(s: seq<real>, i: nat, bound: nat): (j: nat)
    requires i <= bound <= |s|
    ensures i <= j <= bound
    ensures j < bound ==> Quiet(s[j])
    ensures forall k :: i <= k < j ==> !Quiet(s[k])
    decreases bound - i
  {
    if i == bound then bound
    else if Quiet(s[i]) then i
    else FirstQuietFrom(s, i + 1, bound)
  }

  /** The first `i` in `[i0, bound)` for which `s[4096 - i]` is quiet, or `bound`. */
  function FirstQuietFromEnd(s: seq<real>, i: nat, bound: nat): (j: nat)
    requires |s| == BufferSize && 1 <= i <= bound <= BufferSize
    ensures i <= j <= bound
    ensures j < bound ==> Quiet(s[BufferSize - j])
    ensures forall p :: BufferSize - j < p <= BufferSize - i ==> !Quiet(s[p])
    decreases bound - i
  {
    if i == bound then bound
    else if Quiet(s[BufferSize - i]) then i
    else FirstQuietFromEnd(s, i + 1, bound)
  }

  /** `r1`: the first quiet index in the first half, else 0. */
  function TrimStart(s: seq<real>): (r1: nat)
    requires |s| == BufferSize
    ensures r1 < BufferSize / 2
    ensures r1 == 0 || Quiet(s[r1])
    ensures forall k :: 0 <= k < r1 ==> !Quiet(s[k])
    ensures (forall k :: 0 <= k < BufferSize / 2 ==> !Quiet(s[k])) ==> r1 == 0
    ensures (exists k :: 0 <= k < BufferSize / 2 && Quiet(s[k])) ==> Quiet(s[r1])
  {
    var j := FirstQuietFrom(s, 0, |s| / 2);
    if j < |s| / 2 then j else 0
  }

  /** `r2`: `4096 - i` for the first `i` in `[1, 2048)` whose sample `4096 - i`
      is quiet, else 4095. */
  function TrimEnd(s: seq<real>): (r2: nat)
    requires |s| == BufferSize
    ensures BufferSize / 2 < r2 < BufferSize
    ensures r2 == BufferSize - 1 || Quiet(s[r2])
    ensures forall k :: r2 < k < BufferSize ==> !Quiet(s[k])
    ensures (forall k :: BufferSize / 2 < k < BufferSize ==> !Quiet(s[k])) ==> r2 == BufferSize - 1
    ensures (exists k :: BufferSize / 2 < k < BufferSize && Quiet(s[k])) ==> Quiet(s[r2])
  {
    var j := FirstQuietFromEnd(s, 1, |s| / 2);
    if j < |s| / 2 then BufferSize - j else BufferSize - 1
  }

  /** `buf.slice(r1, r2)`: never empty, since `r1 < 2048 < r2`. */
  function Trimmed(s: seq<real>): (t: seq<real>)
    requires |s| == BufferSize
    ensures 2 <= |t| < BufferSize
  {
    s[TrimStart(s)..TrimEnd(s)]
  }

  /** The two scans of the edge trim, with their early `break`s. */
  method TrimBounds(buf: array<real>) returns (r1: nat, r2: nat)
    requires buf.Length == BufferSize
    ensures r1 == TrimStart(buf[..]) && r2 == TrimEnd(buf[..])
  {
    ghost var s := buf[..];
    r1, r2 := 0, BufferSize - 1;
    var i := 0;
    while i < buf.Length / 2
      invariant 0 <= i <= buf.Length / 2
      invariant FirstQuietFrom(s, i, |s| / 2) == FirstQuietFrom(s, 0, |s| / 2)
    {
      if Abs(buf[i]) < TrimThreshold {
        r1 := i;
        break;
      }
      i := i + 1;
    }
    i := 1;
    while i < buf.Length / 2
      invariant 1 <= i <= buf.Length / 2
      invariant FirstQuietFromEnd(s, i, |s| / 2) == FirstQuietFromEnd(s, 1, |s| / 2)
    {
      if Abs(buf[BufferSize - i]) < TrimThreshold {
        r2 := BufferSize - i;
        break;
      }
      i := i + 1;
    }
  }

  // ---------------------------------------------------------------------
  // Autocorrelation (tuner/script.js:357-371)
  // ---------------------------------------------------------------------

  /** `sum_{i < k} s[i] * s[i + lag]`, accumulated from the front. */
  function CorrPrefix(s: seq<real>, lag: nat, k: nat): real
    requires k + lag <= |s|
  {
    if k == 0 then 0.0 else CorrPrefix(s, lag, k - 1) + s[k - 1] * s[k - 1 + lag]
  }

  /** The unnormalised autocorrelation at `lag`: the sum over `i < |s| - lag`, and
      0 when the lag is at least the length (the inner loop does not run). */
  function Corr(s: seq<real>, lag: nat): real
  {
    if lag < |s| then CorrPrefix(s, lag, |s| - lag) else 0.0
  }

  /** What the source reads as `c[L]`: the correlation for `30 <= L < 800`, and 0
      below (the array's `fill(0)`) and at 800 (`c[800] || 0`). */
  function CorrelationAt(s: seq<real>, lag: int): real
  {
    if MinLag <= lag < LagLimit then Corr(s, lag) else 0.0
  }

  /** The array `c` as the peak scans see it, indices 0..799. */
  ghost function Correlations(s: seq<real>): (c: seq<real>)
    ensures |c| == LagLimit
    ensures forall lag :: 0 <= lag < LagLimit ==> c[lag] == CorrelationAt(s, lag)
  {
    seq(LagLimit, lag => CorrelationAt(s, lag))
  }

  /** The nested correlation loop, filling `c[30..799]` of a zero-filled array. */
  method Correlate(buf2: seq<real>) returns (c: seq<real>)
    ensures c == Correlations(buf2)
  {
    var arr := new real[LagLimit](_ => 0.0);
    var offset := MinLag;
    while offset < LagLimit
      invariant MinLag <= offset <= LagLimit
      invariant forall lag :: 0 <= lag < offset ==> arr[lag] == CorrelationAt(buf2, lag)
      invariant forall lag :: offset <= lag < LagLimit ==> arr[lag] == 0.0
    {
      var corr := 0.0;
      var i := 0;
      while i < |buf2| - offset
        invariant 0 <= i <= (if offset < |buf2| then |buf2| - offset else 0)
        invariant corr == (if offset < |buf2| then CorrPrefix(buf2, offset, i) else 0.0)
      {
        corr := corr + buf2[i] * buf2[i + offset];
        i := i + 1;
      }
      arr[offset] := corr;
      offset := offset + 1;
    }
    c := arr[..];
    assert forall lag :: 0 <= lag < LagLimit ==> c[lag] == Correlations(buf2)[lag];
  }

  // ---------------------------------------------------------------------
  // Peak choice (tuner/script.js:374-396)
  // ---------------------------------------------------------------------

  /** Lag `i` is a peak: above the threshold and strictly above both neighbours. */
  predicate IsPeak(c: seq<real>, thresh: real, i: int)
    requires |c| == LagLimit && 1 <= i < LagLimit - 1
  {
    c[i] > thresh && c[i] > c[i - 1] && c[i] > c[i + 1]
  }

  /** `best` is the smallest peak among lags 30..798. */
  predicate FirstPeak(c: seq<real>, thresh: real, best: int)
    requires |c| == LagLimit
  {
    && MinLag <= best < LagLimit - 1
    && IsPeak(c, thresh, best)
    && forall j :: MinLag <= j < best ==> !IsPeak(c, thresh, j)
  }

  predicate NoPeak(c: seq<real>, thresh: real)
    requires |c| == LagLimit
  {
    forall j :: MinLag <= j < LagLimit - 1 ==> !IsPeak(c, thresh, j)
  }

  /** `best` is the smallest lag in 30..799 attaining the maximum, and that maximum exceeds -1. */
  predicate FirstMax(c: seq<real>, best: int)
    requires |c| == LagLimit
  {
    && MinLag <= best < LagLimit
    && c[best] > -1.0
    && (forall j :: MinLag <= j < LagLimit ==> c[j] <= c[best])
    && (forall j :: MinLag <= j < best ==> c[j] < c[best])
  }

  predicate NoneAboveMinusOne(c: seq<real>)
    requires |c| == LagLimit
  {
    forall j :: MinLag <= j < LagLimit ==> c[j] <= -1.0
  }

  /** The source's choice of lag: the first peak; failing that the first
      maximum above -1; failing that -1. */
  predicate ChosenLag(c: seq<real>, thresh: real, best: int)
    requires |c| == LagLimit
  {
    || FirstPeak(c, thresh, best)
    || (NoPeak(c, thresh) && FirstMax(c, best))
    || (NoPeak(c, thresh) && NoneAboveMinusOne(c) && best == -1)
  }

  /** The choice is a function of the correlations: at most one lag satisfies it. */
  lemma ChosenLagUnique(c: seq<real>, thresh: real, a: int, b: int)
    requires |c| == LagLimit && ChosenLag(c, thresh, a) && ChosenLag(c, thresh, b)
    ensures a == b
  {
  }

  /** The two scans: the first peak above `0.8 * maxVal`, else the running maximum from -1. */
  method PickPeak(c: seq<real>, maxVal: real) returns (best: int)
    requires |c| == LagLimit
    ensures ChosenLag(c, maxVal * 0.8, best)
    ensures best == -1 || MinLag <= best < LagLimit
  {
    var peakThresh := maxVal * 0.8;
    best := -1;
    var i := MinLag;
    while i < LagLimit - 1
      invariant MinLag <= i <= LagLimit - 1
      invariant best == -1
      invariant forall j :: MinLag <= j < i ==> !IsPeak(c, peakThresh, j)
    {
      if c[i] > peakThresh && c[i] > c[i - 1] && c[i] > c[i + 1] {
        best := i;
        break;
      }
      i := i + 1;
    }
    if best == -1 {
      assert NoPeak(c, peakThresh);
      var maxCorr := -1.0;
      var k := MinLag;
      while k < LagLimit
        invariant MinLag <= k <= LagLimit
        invariant best == -1 ==> maxCorr == -1.0 && forall j :: MinLag <= j < k ==> c[j] <= -1.0
        invariant best != -1 ==> MinLag <= best < k && maxCorr == c[best] && maxCorr > -1.0
        invariant best != -1 ==> forall j :: MinLag <= j < k ==> c[j] <= maxCorr
        invariant best != -1 ==> forall j :: MinLag <= j < best ==> c[j] < maxCorr
      {
        if c[k] > maxCorr {
          maxCorr := c[k];
          best := k;
        }
        k := k + 1;
      }
    }
  }

  // ---------------------------------------------------------------------
  // Result and parabolic refinement (tuner/script.js:398-405)
  // ---------------------------------------------------------------------

  /** The period estimate: no pitch (the source's -1), or the chosen lag with
      `c[lag - 1] || 0`, `c[lag]` and `c[lag + 1] || 0`. */
  datatype Estimate = NoPitch | Period(lag: int, prev: real, curr: real, next: real)
  {
    /** The denominator of the parabolic shift is non-zero (the source has no guard). */
    predicate ShiftDefined()
    {
      Period? && prev - 2.0 * curr + next != 0.0
    }

    function Shift(): real
      requires ShiftDefined()
    {
      (prev - next) / (2.0 * (prev - 2.0 * curr + next))
    }

    /** `sampleRate / (bestPeriod + shift)`, defined when neither division is by zero. */
    function Frequency(sampleRate: real): real
      requires ShiftDefined() && lag as real + Shift() != 0.0
    {
      sampleRate / (lag as real + Shift())
    }
  }

  /** The shift is the vertex of the parabola through the three correlations:
      for `q(x) = a*x*x + b*x + k` with `a != 0` sampled at -1, 0, 1, it is `-b / (2a)`. */
  lemma ShiftIsParabolaVertex(e: Estimate, a: real, b: real, k: real)
    requires e.Period? && a != 0.0
    requires e.prev == a - b + k && e.curr == k && e.next == a + b + k
    ensures e.ShiftDefined() && e.Shift() == -b / (2.0 * a)
  {
    assert e.prev - 2.0 * e.curr + e.next == 2.0 * a;
    assert e.prev - e.next == -2.0 * b;
  }

  /** At a strict local maximum (every first-peak choice) the shift is always
      defined and less than half a sample, so the frequency is defined too. */
  lemma PeakShiftBounded(e: Estimate)
    requires e.Period? && e.lag >= MinLag && e.curr > e.prev && e.curr > e.next
    ensures e.ShiftDefined()
    ensures -0.5 < e.Shift() < 0.5
    ensures e.lag as real + e.Shift() > 0.0
  {
    var d := 2.0 * (e.prev - 2.0 * e.curr + e.next);
    assert d < 0.0;
    var n := e.prev - e.next;
    assert d / 2.0 < n < -d / 2.0 by {
      assert n - d / 2.0 == 2.0 * (e.curr - e.next) > 0.0;
      assert n + d / 2.0 == 2.0 * (e.prev - e.curr) < 0.0;
    }
    assert e.Shift() == n / d;
    DivBounds(n, d);
  }

  lemma DivBounds(n: real, d: real)
    requires d < 0.0 && d / 2.0 < n < -d / 2.0
    ensures -0.5 < n / d < 0.5
  {
  }

  /** `est` is what the source returns for correlations `c` and threshold `thresh`:
      -1 exactly when no lag is chosen, otherwise the chosen lag with its two
      neighbours (`c[800]` reads as 0). */
  ghost predicate EstimateFor(c: seq<real>, thresh: real, est: Estimate)
    requires |c| == LagLimit
  {
    && (est.NoPitch? ==> ChosenLag(c, thresh, -1))
    && (est.Period? ==>
          && MinLag <= est.lag < LagLimit
          && ChosenLag(c, thresh, est.lag)
          && est.prev == c[est.lag - 1]
          && est.curr == c[est.lag]
          && est.next == (if est.lag + 1 < LagLimit then c[est.lag + 1] else 0.0))
  }

  /** The lag choice followed by the read-out of the three correlations that the
      refinement uses. */
  method ChooseEstimate(c: seq<real>, maxVal: real) returns (est: Estimate)
    requires |c| == LagLimit
    ensures EstimateFor(c, maxVal * 0.8, est)
  {
    var bestPeriod := PickPeak(c, maxVal);
    if bestPeriod != -1 {
      var prev := c[bestPeriod - 1];
      var next := if bestPeriod + 1 < LagLimit then c[bestPeriod + 1] else 0.0;
      est := Period(bestPeriod, prev, c[bestPeriod], next);
    } else {
      est := NoPitch;
    }
  }

  /** `autoCorrelate`: the noise gate, then the trim, the correlation and the lag choice. */
  method AutoCorrelate(buf: array<real>) returns (est: Estimate)
    requires buf.Length == BufferSize
    ensures Silent(buf[..]) ==> est == NoPitch
    ensures !Silent(buf[..]) ==>
      EstimateFor(Correlations(Trimmed(buf[..])), SumSq(Trimmed(buf[..])) * 0.8, est)
  {
    var sum := SumOfSquares(buf[..]);
    if sum < GateMeanSquare * buf.Length as real {
      return NoPitch;
    }
    var r1, r2 := TrimBounds(buf);
    var buf2 := buf[r1..r2];
    assert buf2 == Trimmed(buf[..]);
    var c := Correlate(buf2);
    var maxVal := SumOfSquares(buf2);
    est := ChooseEstimate(c, maxVal);
  }

  // ---------------------------------------------------------------------
  // Note matching (tuner/script.js:174-196, 226-257)
  // ---------------------------------------------------------------------

  function Distance(freq: real, i: StringIndex): real
  {
    Abs(freq - GuitarStrings[i].freq)
  }

  /** The loop of `detectNote` from string `i` on, with the closest string so far
      (none before the first iteration, which always sets it: `diff < Infinity`). */
  function DetectFrom(freq: real, i: nat, closest: Option<StringIndex>): (r: StringIndex)
    requires i <= 6 && (i == 0 <==> closest.None?)
    decreases 6 - i
  {
    if i == 6 then closest.value
    else if InWindow(freq, i) then i
    else
      var next :=
        if closest.None? || Distance(freq, i) < Distance(freq, closest.value) then Some(i) else closest;
      DetectFrom(freq, i + 1, next)
  }

  /** The string `detectNote` returns for a frequency. */
  function DetectedString(freq: real): StringIndex
  {
    DetectFrom(freq, 0, None)
  }

  /** `closest` is the earliest string among `[0, i)` nearest to `freq`. */
  ghost predicate EarliestNearestBelow(freq: real, i: nat, c: StringIndex)
  {
    && c < i
    && (forall j: StringIndex :: j < i ==> Distance(freq, c) <= Distance(freq, j))
    && (forall j: StringIndex :: j < c ==> Distance(freq, c) < Distance(freq, j))
  }

  /** From string `i` on, the scan stops at the first string whose window
      holds `freq`, when there is one. */
  lemma {:induction false} DetectFromWindow(freq: real, i: nat, closest: Option<StringIndex>)
    requires i <= 6 && (i == 0 <==> closest.None?)
    requires forall j: StringIndex :: j < i ==> !InWindow(freq, j)
    ensures var r := DetectFrom(freq, i, closest);
      (exists j: StringIndex :: InWindow(freq, j)) ==>
        InWindow(freq, r) && forall j: StringIndex :: j < r ==> !InWindow(freq, j)
    decreases 6 - i
  {
    if i < 6 && !InWindow(freq, i) {
      var next :=
        if closest.None? || Distance(freq, i) < Distance(freq, closest.value) then Some(i) else closest;
      DetectFromWindow(freq, i + 1, next);
    }
  }

  /** With no window holding `freq`, the running minimum from string `i` on
      ends on the earliest nearest string. */
  lemma {:induction false} DetectFromNearest(freq: real, i: nat, closest: Option<StringIndex>)
    requires i <= 6 && (i == 0 <==> closest.None?)
    requires closest.Some? ==> EarliestNearestBelow(freq, i, closest.value)
    requires forall j: StringIndex :: !InWindow(freq, j)
    ensures EarliestNearestBelow(freq, 6, DetectFrom(freq, i, closest))
    decreases 6 - i
  {
    if i < 6 {
      var next :=
        if closest.None? || Distance(freq, i) < Distance(freq, closest.value) then Some(i) else closest;
      DetectFromNearest(freq, i + 1, next);
    }
  }

  /** What `detectNote` promises: the first string (in table order) whose
      inclusive window holds `freq`; if there is none, the string with the
      smallest distance in Hz to its target, the earliest one on a tie. */
  lemma DetectedStringSpec(freq: real)
    ensures var r := DetectedString(freq);
      && ((exists j: StringIndex :: InWindow(freq, j)) ==>
            InWindow(freq, r) && forall j: StringIndex :: j < r ==> !InWindow(freq, j))
      && ((forall j: StringIndex :: !InWindow(freq, j)) ==>
            && (forall j: StringIndex :: Distance(freq, r) <= Distance(freq, j))
            && (forall j: StringIndex :: j < r ==> Distance(freq, r) < Distance(freq, j)))
  {
    DetectFromWindow(freq, 0, None);
    if forall j: StringIndex :: !InWindow(freq, j) {
      DetectFromNearest(freq, 0, None);
    }
  }

  /** `detectNote`: the scan with a running minimum and an early return. It
      always returns a string for a real frequency. */
  method DetectNote(freq: real) returns (r: StringIndex)
    ensures r == DetectedString(freq)
    ensures (exists j: StringIndex :: InWindow(freq, j)) ==>
      InWindow(freq, r) && forall j: StringIndex :: j < r ==> !InWindow(freq, j)
    ensures (forall j: StringIndex :: !InWindow(freq, j)) ==>
      forall j: StringIndex :: Distance(freq, r) <= Distance(freq, j)
  {
    DetectedStringSpec(freq);
    var closest: Option<StringIndex> := None;
    var minDiff := 0.0;
    var i := 0;
    while i < 6
      invariant 0 <= i <= 6 && (i == 0 <==> closest.None?)
      invariant closest.Some? ==> minDiff == Distance(freq, closest.value)
      invariant DetectFrom(freq, i, closest) == DetectedString(freq)
    {
      var data := GuitarStrings[i];
      if freq >= data.min && freq <= data.max {
        return i;
      }
      var diff := Abs(freq - data.freq);
      if closest.None? || diff < minDiff {
        minDiff := diff;
        closest := Some(i);
      }
      i := i + 1;
    }
    r := closest.value;
  }

  /** 95 Hz lies in both the E2 and A2 windows; the scan order makes it E2. */
  lemma SharedBoundIsE2()
    ensures DetectedString(95.0) == 0
  {
  }

  /** 500 Hz is outside every window; the nearest target is E4 (329.63 Hz). */
  lemma FiveHundredHertzIsE4()
    ensures DetectedString(500.0) == 5
  {
    DetectedStringSpec(500.0);
  }

  /** What the tuner listens for: every string, or only the one selected. */
  datatype Target = Auto | Manual(index: StringIndex)

  /** The note matcher: in automatic mode `detectNote`; in manual mode the
      selected string when its window holds the frequency, otherwise nothing. */
  function MatchedString(target: Target, freq: real): (m: Option<StringIndex>)
    ensures target.Auto? ==> m == Some(DetectedString(freq))
    ensures target.Manual? ==> (m.Some? <==> InWindow(freq, target.index))
    ensures target.Manual? && m.Some? ==> m.value == target.index
  {
    match target
    case Auto => Some(DetectedString(freq))
    case Manual(i) => if InWindow(freq, i) then Some(i) else None
  }

  /** Manual mode on E2 rejects 100 Hz, which automatic mode matches to A2. */
  lemma ManualModeIsStrict()
    ensures MatchedString(Manual(0), 100.0) == None
    ensures MatchedString(Auto, 100.0) == Some(1)
  {
  }

  // ---------------------------------------------------------------------
  // Cents, needle and indicator (tuner/script.js:203-208, 259-261, 281-307)
  // ---------------------------------------------------------------------

  /** `1200 * log2(current / target)`, with `log2` supplied by the host. */
  function Cents(current: real, target: real, log2: real -> real): real
    requires target != 0.0
  {
    1200.0 * log2(current / target)
  }

  /** The needle target: cents clamped to [-50, 50], scaled by 45/50 degrees. */
  function NeedleAngle(cents: real): (angle: real)
    ensures -45.0 <= angle <= 45.0
    ensures -50.0 <= cents <= 50.0 ==> angle == cents * 0.9
    ensures cents >= 50.0 ==> angle == 45.0
    ensures cents <= -50.0 ==> angle == -45.0
  {
    var clamp := if cents < -50.0 then -50.0 else if cents > 50.0 then 50.0 else cents;
    clamp * (45.0 / 50.0)
  }

  /** The text of the tuning indicator. */
  datatype Indicator = Blank | InTune | Flat | Sharp

  /** `updateIndicators`: within 5 cents either way is in tune; below is flat, above sharp. */
  function Classify(cents: real): (r: Indicator)
    ensures r != Blank
    ensures r == InTune <==> -TunedTolerance <= cents <= TunedTolerance
    ensures r == Flat <==> cents < -TunedTolerance
    ensures r == Sharp <==> cents > TunedTolerance
  {
    if Abs(cents) <= TunedTolerance then InTune
    else if cents < 0.0 then Flat
    else Sharp
  }

  // ---------------------------------------------------------------------
  // Stability machine (tuner/script.js:158-166, 210-220)
  // ---------------------------------------------------------------------

  /** The tracker's memory: `timeInTune` (ms) and `hasPlayedSound`. */
  datatype Stability = Stability(timeInTune: real, hasPlayedSound: bool)

  const Reset := Stability(0.0, false)

  /** What one frame brings to the tracker: silence (frequency -1), a pitch that
      manual mode ignores, or a matched reading `cents` off after `dt` ms. */
  datatype Frame = Silence | Ignored | Heard(cents: real, dt: real)

  /** One frame of the tracker; the boolean says whether the chime rings. */
  function Track(s: Stability, f: Frame): (Stability, bool)
  {
    match f
    case Silence => (Stability(0.0, s.hasPlayedSound), false)
    case Ignored => (s, false)
    case Heard(cents, dt) =>
      if Abs(cents) <= TunedTolerance then
        var t := s.timeInTune + dt;
        if t > StableDuration && !s.hasPlayedSound then (Stability(t, true), true)
        else (Stability(t, s.hasPlayedSound), false)
      else (Reset, false)
  }

  /** A sequence of frames: the final memory and the number of chimes. */
  function Run(s: Stability, frames: seq<Frame>): (Stability, nat)
    decreases |frames|
  {
    if frames == [] then (s, 0)
    else
      var (s1, rang) := Track(s, frames[0]);
      var (s2, n) := Run(s1, frames[1..]);
      (s2, n + (if rang then 1 else 0))
  }

  /** A reading outside the tolerance. */
  predicate Detuned(f: Frame)
  {
    f.Heard? && Abs(f.cents) > TunedTolerance
  }

  /** The chime rings at most once until a detuned reading re-arms it, and not at
      all if it has already rung. Silence does not re-arm it: it clears the time
      but keeps `hasPlayedSound`. */
  lemma {:induction false} AtMostOneChimeUntilDetuned(s: Stability, frames: seq<Frame>)
    requires forall k :: 0 <= k < |frames| ==> !Detuned(frames[k])
    ensures Run(s, frames).1 <= (if s.hasPlayedSound then 0 else 1)
    ensures s.hasPlayedSound ==> Run(s, frames).0.hasPlayedSound
    ensures Run(s, frames).1 == 1 ==> Run(s, frames).0.hasPlayedSound
    decreases |frames|
  {
    if frames != [] {
      var s1 := Track(s, frames[0]).0;
      AtMostOneChimeUntilDetuned(s1, frames[1..]);
    }
  }

  /** A detuned reading clears both the time and the latch. */
  lemma DetunedResets(s: Stability, f: Frame)
    requires Detuned(f)
    ensures Track(s, f) == (Reset, false)
  {
  }

  /** `sum` of the `dt`s of a sequence of readings. */
  function TotalTime(frames: seq<Frame>): real
    requires forall k :: 0 <= k < |frames| ==> frames[k].Heard?
  {
    if frames == [] then 0.0 else frames[0].dt + TotalTime(frames[1..])
  }

  /** While every reading is in tune, the time in tune grows by exactly the frame times. */
  lemma {:induction false} InTuneTimeAccumulates(s: Stability, frames: seq<Frame>)
    requires forall k :: 0 <= k < |frames| ==> frames[k].Heard? && Abs(frames[k].cents) <= TunedTolerance
    ensures Run(s, frames).0.timeInTune == s.timeInTune + TotalTime(frames)
    decreases |frames|
  {
    if frames != [] {
      InTuneTimeAccumulates(Track(s, frames[0]).0, frames[1..]);
    }
  }

  /** Five in-tune frames of 100 ms from a fresh start ring the chime exactly
      once, on the fifth frame (500 ms > 400 ms); four frames (400 ms) do not. */
  lemma FiveFramesChimeOnce()
    ensures Run(Reset, seq(4, _ => Heard(0.0, 100.0))).1 == 0
    ensures Run(Reset, seq(5, _ => Heard(0.0, 100.0))).1 == 1
  {
    var f := Heard(0.0, 100.0);
    var four := seq(4, _ => f);
    var five := seq(5, _ => f);
    assert four == [f, f, f, f];
    assert five == [f, f, f, f, f];
    var s4 := Stability(400.0, false);
    assert Run(Reset, [f, f, f, f]) == (s4, 0) by {
      assert Run(Stability(300.0, false), [f]) == (s4, 0);
      assert Run(Stability(200.0, false), [f, f]) == (s4, 0);
      assert Run(Stability(100.0, false), [f, f, f]) == (s4, 0);
    }
    assert Run(Reset, [f, f, f, f, f]) == (Stability(500.0, true), 1) by {
      assert Run(s4, [f]) == (Stability(500.0, true), 1);
      assert Run(Stability(300.0, false), [f, f]) == (Stability(500.0, true), 1);
      assert Run(Stability(200.0, false), [f, f, f]) == (Stability(500.0, true), 1);
      assert Run(Stability(100.0, false), [f, f, f, f]) == (Stability(500.0, true), 1);
    }
  }

  /** The frame a pitch makes for the tracker, given the target mode. */
  function FrameOf(target: Target, frequency: real, dt: real, log2: real -> real): Frame
  {
    if frequency == -1.0 then Silence
    else
      match MatchedString(target, frequency)
      case None => Ignored
      case Some(i) => Heard(Cents(frequency, GuitarStrings[i].freq, log2), dt)
  }

  /** `note.replace(/\d/, '')`: the name without its first digit. A name with
      no digit is left as it is; otherwise exactly one character goes. */
  function RemoveFirstDigit(s: string): (r: string)
    ensures r == s <==> forall k :: 0 <= k < |s| ==> !IsDigit(s[k])
    ensures r != s ==> |r| == |s| - 1
  {
    if s == [] then []
    else if IsDigit(s[0]) then s[1..]
    else [s[0]] + RemoveFirstDigit(s[1..])
  }

  /** The character removed is the first digit, and the rest keep their order. */
  lemma {:induction false} RemoveFirstDigitAt(s: string, k: int)
    requires 0 <= k < |s| && IsDigit(s[k])
    requires forall j :: 0 <= j < k ==> !IsDigit(s[j])
    ensures RemoveFirstDigit(s) == s[..k] + s[k + 1..]
    decreases k
  {
    if k > 0 {
      RemoveFirstDigitAt(s[1..], k - 1);
      assert s[1..][..k - 1] == s[1..k];
      assert s[1..][k..] == s[k + 1..];
      assert [s[0]] + s[1..k] == s[..k];
    }
  }

  /** The note names the tuner displays for the six strings: the octave
      digit dropped, so both E strings show "E". */
  lemma DisplayedStringNames()
    ensures RemoveFirstDigit(GuitarStrings[0].note) == "E" && RemoveFirstDigit(GuitarStrings[1].note) == "A"
    ensures RemoveFirstDigit(GuitarStrings[2].note) == "D" && RemoveFirstDigit(GuitarStrings[3].note) == "G"
    ensures RemoveFirstDigit(GuitarStrings[4].note) == "B" && RemoveFirstDigit(GuitarStrings[5].note) == "E"
  {
  }

  /** The string a pitch is matched to in `processPitch`: the detected one in
      automatic mode; in manual mode the selected one, when the pitch lies in
      its window. */
  method MatchString(target: Target, frequency: real) returns (m: Option<StringIndex>)
    ensures m == MatchedString(target, frequency)
  {
    match target {
      case Auto =>
        var i := DetectNote(frequency);
        m := Some(i);
      case Manual(k) =>
        var s := GuitarStrings[k];
        if frequency >= s.min && frequency <= s.max {
          m := Some(k);
        } else {
          m := None;
        }
    }
  }

  /** The tuner's module-level state that the pitch pipeline reads and writes. */
  class TunerSession {
    var currentString: Target
    var timeInTune: real
    var hasPlayedSound: bool
    var targetNeedleAngle: real
    var indicator: Indicator
    /** The text of the note-name element. */
    var noteName: string

    function Memory(): Stability
      reads this
    {
      Stability(timeInTune, hasPlayedSound)
    }

    constructor ()
      ensures currentString == Auto && Memory() == Reset
      ensures targetNeedleAngle == 0.0 && indicator == Blank && noteName == "--"
    {
      currentString := Auto;
      timeInTune := 0.0;
      hasPlayedSound := false;
      targetNeedleAngle := 0.0;
      indicator := Blank;
      noteName := "--";
    }

    /** The string-button handler: a new target, and the time, latch and needle reset. */
    method SelectString(t: Target)
      modifies this
      ensures currentString == t && Memory() == Reset && targetNeedleAngle == 0.0
      ensures noteName == (match t case Auto => "--" case Manual(i) => RemoveFirstDigit(GuitarStrings[i].note))
      ensures indicator == old(indicator)
    {
      currentString := t;
      noteName := match t case Auto => "--" case Manual(i) => RemoveFirstDigit(GuitarStrings[i].note);
      hasPlayedSound := false;
      timeInTune := 0.0;
      targetNeedleAngle := 0.0;
    }

    /** `processPitch`: one frame's frequency (-1 for none) and elapsed `dt` ms.
        Returns whether the confirmation chime rings. */
    method ProcessPitch(frequency: real, dt: real, log2: real -> real) returns (chime: bool)
      modifies this
      ensures currentString == old(currentString)
      ensures (Memory(), chime) == Track(old(Memory()), FrameOf(old(currentString), frequency, dt, log2))
      ensures frequency == -1.0 ==>
        targetNeedleAngle == 0.0 && indicator == old(indicator) && noteName == old(noteName)
      ensures frequency != -1.0 && MatchedString(currentString, frequency).None? ==>
        targetNeedleAngle == old(targetNeedleAngle) && indicator == old(indicator) && noteName == old(noteName)
      ensures frequency != -1.0 && MatchedString(currentString, frequency).Some? ==>
        var i := MatchedString(currentString, frequency).value;
        var cents := Cents(frequency, GuitarStrings[i].freq, log2);
        && targetNeedleAngle == NeedleAngle(cents)
        && indicator == Classify(cents)
        && noteName == RemoveFirstDigit(GuitarStrings[i].note)
    {
      chime := false;
      if frequency == -1.0 {
        targetNeedleAngle := 0.0;
        timeInTune := 0.0;
        return;
      }
      var m := MatchString(currentString, frequency);
      if m.None? {
        return;
      }
      var i := m.value;
      var centDiff := Cents(frequency, GuitarStrings[i].freq, log2);
      var clamp := if centDiff < -50.0 then -50.0 else if centDiff > 50.0 then 50.0 else centDiff;
      var t, played := timeInTune, hasPlayedSound;
      if Abs(centDiff) <= TunedTolerance {
        t := t + dt;
        if t > StableDuration && !played {
          chime := true;
          played := true;
        }
      } else {
        t, played := 0.0, false;
      }
      noteName := RemoveFirstDigit(GuitarStrings[i].note);
      targetNeedleAngle := clamp * (45.0 / 50.0);
      indicator := Classify(centDiff);
      timeInTune, hasPlayedSound := t, played;
    }
  }
}
