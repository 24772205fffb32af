/** The optional value that stands for JavaScript's `null` / `undefined` results. */
module Options {
  datatype Option<+T> = None | Some(value: T)
}

/**
 * The few pieces of JavaScript number and string semantics that the modelled
 * code relies on, written out so that the models can use them explicitly:
 * the truncating remainder `%`, `Math.floor`, `Math.round`, `Math.abs`,
 * ASCII `toUpperCase`, `indexOf`, `includes` and decimal integer text.
 * Numbers are mathematical (`int` or `real`), not IEEE doubles.
 */
module JsSemantics {

  /** JavaScript `a % b` on integers: the remainder truncates toward zero, so it
      takes the sign of the dividend (unlike Dafny's Euclidean `%`). */
  function IntRem(a: int, b: int): (r: int)
    requires b > 0
    ensures a >= 0 ==> r == a % b
    ensures a < 0 ==> -b < r <= 0
  {
    if a >= 0 then a % b else -((-a) % b)
  }

  /** Modulo 12, adding 12 to a negative JavaScript remainder gives the
      Euclidean remainder. */
  lemma RemTwelveNormalised(a: int)
    ensures (if IntRem(a, 12) < 0 then IntRem(a, 12) + 12 else IntRem(a, 12)) == a % 12
  {
    if a < 0 {
      var q, m := (-a) / 12, (-a) % 12;
      assert a == 12 * -q - m;
      if m == 0 {
        assert a % 12 == 0;
      } else {
        assert a == 12 * (-q - 1) + (12 - m);
        assert a % 12 == 12 - m;
      }
    }
  }

  /** Truncation of a real toward zero. */
  function Trunc(x: real): (r: int)
    ensures x >= 0.0 ==> r as real <= x < r as real + 1.0
    ensures x < 0.0 ==> r as real - 1.0 < x <= r as real
  {
    if x >= 0.0 then x.Floor else -((-x).Floor)
  }

  /** JavaScript `x % 360` on numbers: `x - 360 * trunc(x / 360)`, which keeps
      the sign of `x`. */
  function Rem360(x: real): (r: real)
    ensures x >= 0.0 ==> 0.0 <= r < 360.0
    ensures x < 0.0 ==> -360.0 < r <= 0.0
    ensures 0.0 <= x < 360.0 ==> r == x
  {
    x - 360.0 * Trunc(x / 360.0) as real
  }

  /** `Math.round`: halves round toward +infinity. */
  function Round(x: real): (r: int)
    ensures x - 0.5 < r as real <= x + 0.5
  {
    (x + 0.5).Floor
  }

  function Abs(x: real): (r: real)
    ensures r >= 0.0 && (r == x || r == -x)
  {
    if x < 0.0 then -x else x
  }

  /** `String.prototype.toUpperCase` restricted to ASCII letters. */
  function UpperChar(c: char): (u: char)
    ensures 'a' <= c <= 'z' ==> u as int == c as int - 32
    ensures !('a' <= c <= 'z') ==> u == c
  {
    if 'a' <= c <= 'z' then (c as int - 32) as char else c
  }

  function ToUpper(s: string): (u: string)
    ensures |u| == |s|
    ensures forall i :: 0 <= i < |s| ==> u[i] == UpperChar(s[i])
  {
    if s == [] then [] else [UpperChar(s[0])] + ToUpper(s[1..])
  }

  /** `Array.prototype.indexOf`: the first index holding `x`, or -1. */
  function IndexOf<T(==)>(xs: seq<T>, x: T): (i: int)
    ensures -1 <= i < |xs|
    ensures i == -1 <==> x !in xs
    ensures 0 <= i ==> xs[i] == x && x !in xs[..i]
  {
    if xs == [] then -1
    else if xs[0] == x then 0
    else
      var j := IndexOf(xs[1..], x);
      assert xs[1..][..if j < 0 then 0 else j] == xs[1..if j < 0 then 1 else j + 1];
      if j == -1 then -1 else j + 1
  }

  predicate OccursAt(s: string, part: string, i: int)
  {
    0 <= i <= |s| - |part| && s[i..i + |part|] == part
  }

  /** `part` occurs somewhere in `s`. */
  ghost predicate Occurs(s: string, part: string)
  {
    exists i :: OccursAt(s, part, i)
  }

  /** `String.prototype.includes`. */
  function Includes(s: string, part: string): (b: bool)
    ensures b <==> Occurs(s, part)
  {
    IncludesFrom(s, part, 0)
  }

  /** Whether `part` occurs in `s` at some index `i` or later, scanning from the left. */
  function IncludesFrom(s: string, part: string, i: nat): (b: bool)
    requires i <= |s|
    ensures b <==> exists j :: i <= j && OccursAt(s, part, j)
    decreases |s| - i
  {
    if i + |part| > |s| then false
    else if s[i..i + |part|] == part then (assert OccursAt(s, part, i); true)
    else
      var b := IncludesFrom(s, part, i + 1);
      assert forall j :: i <= j && OccursAt(s, part, j) ==> i + 1 <= j;
      b
  }

  predicate IsDigit(c: char) { '0' <= c <= '9' }

  predicate AllDigits(s: string) { forall i :: 0 <= i < |s| ==> IsDigit(s[i]) }

  /** The value of a string of decimal digits, most significant first. */
  function DecimalValue(s: string): (n: nat)
    requires AllDigits(s)
  {
    if s == [] then 0 else DecimalValue(s[..|s| - 1]) * 10 + (s[|s| - 1] as int - '0' as int)
  }

  function DigitChar(d: nat): (c: char)
    requires d < 10
    ensures IsDigit(c) && c as int - '0' as int == d
  {
    ('0' as int + d) as char
  }

  /** The decimal text of a natural number, as `String(n)` writes it. */
  function NatToString(n: nat): (s: string)
    ensures |s| > 0 && AllDigits(s)
  {
    if n < 10 then [DigitChar(n)] else NatToString(n / 10) + [DigitChar(n % 10)]
  }

  /** The decimal text of an integer, with a leading `-` when negative. */
  function IntToString(n: int): (s: string)
    ensures |s| > 0
  {
    if n < 0 then "-" + NatToString(-n) else NatToString(n)
  }

  /** Reading back the text `NatToString` writes gives the number again. */
  lemma {:induction false} DecimalValueOfNatToString(n: nat)
    ensures DecimalValue(NatToString(n)) == n
  {
    var s := NatToString(n);
    if n >= 10 {
      DecimalValueOfNatToString(n / 10);
      assert s[..|s| - 1] == NatToString(n / 10);
    }
  }
}
