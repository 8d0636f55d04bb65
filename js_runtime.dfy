/**
 * The few pieces of the JavaScript runtime that the fuel tracker's logic leans on,
 * stated over Dafny's unbounded reals and integers: optional values, the result of
 * `Number(...)` on a number input's text, `toFixed`, ASCII `toLowerCase`,
 * `String.prototype.includes` and `Array.prototype.slice`.
 */
module JsRuntime {

  datatype Option<+T> = None | Some(value: T)

  /** A JavaScript number: a finite value, or NaN / an infinity. */
  datatype Number = Finite(val: real) | NonFinite

  /** `n > 0` in JavaScript: false for NaN. */
  predicate IsPositive(n: Number) {
    n.Finite? && n.val > 0.0
  }

  /** `a * b`; a non-finite operand gives a non-finite product. */
  function Mul(a: Number, b: Number): (r: Number)
    ensures r.Finite? <==> a.Finite? && b.Finite?
    ensures r.Finite? ==> r.val == a.val * b.val
  {
    if a.Finite? && b.Finite? then Finite(a.val * b.val) else NonFinite
  }

  /** `a / b`; division by zero gives NaN or an infinity. */
  function Div(a: Number, b: Number): (r: Number)
    ensures r.Finite? <==> a.Finite? && b.Finite? && b.val != 0.0
    ensures r.Finite? ==> r.val * b.val == a.val
  {
    if a.Finite? && b.Finite? && b.val != 0.0 then Finite(a.val / b.val) else NonFinite
  }

  function Pow10(n: nat): (p: nat)
    ensures p >= 1
  {
    if n == 0 then 1 else 10 * Pow10(n - 1)
  }

  predicate IsDigit(c: char) {
    '0' <= c <= '9'
  }

  predicate AllDigits(s: string) {
    forall i :: 0 <= i < |s| ==> IsDigit(s[i])
  }

  /** The value of a string of decimal digits, most significant first. */
  function DigitsValue(s: string): (v: nat)
    requires AllDigits(s)
    ensures v < Pow10(|s|)
  {
    if s == [] then 0
    else DigitsValue(s[..|s| - 1]) * 10 + ((s[|s| - 1] as int) - ('0' as int))
  }

  /** The index of the first '.', or |s| when there is none. */
  function DotIndex(s: string): (k: nat)
    ensures k <= |s|
    ensures k < |s| ==> s[k] == '.'
    ensures forall i :: 0 <= i < k ==> s[i] != '.'
  {
    if s == [] then 0
    else if s[0] == '.' then 0
    else 1 + DotIndex(s[1..])
  }

  /** `Number(s)` for an unsigned decimal literal such as "12", "12.5", ".5" or "5.". */
  function UnsignedDecimal(s: string): (r: Number)
    ensures r.Finite? ==> r.val >= 0.0
  {
    var k := DotIndex(s);
    var whole := s[..k];
    var frac := if k < |s| then s[k + 1..] else "";
    if |whole| + |frac| == 0 || !AllDigits(whole) || !AllDigits(frac) then NonFinite
    else Finite(DigitsValue(whole) as real + (DigitsValue(frac) as real) / (Pow10(|frac|) as real))
  }

  /**
   * `Number(s)` for the text of a number input: "" is 0, an optional leading '-'
   * followed by a decimal literal is its value, anything else is NaN.
   */
  function ToNumber(s: string): (r: Number)
    ensures s == "" ==> r == Finite(0.0)
    ensures r.Finite? && s != "" && s[0] != '-' ==> r.val >= 0.0
  {
    if s == "" then Finite(0.0)
    else if s[0] == '-' then
      (var m := UnsignedDecimal(s[1..]); if m.Finite? then Finite(-m.val) else NonFinite)
    else UnsignedDecimal(s)
  }

  /** Rounding half up of a non-negative real to a multiple of 1 / 10^digits. */
  function RoundHalfUp(x: real, digits: nat): (r: real)
    requires x >= 0.0
    ensures r >= 0.0
    ensures x - 0.5 / (Pow10(digits) as real) < r <= x + 0.5 / (Pow10(digits) as real)
  {
    RoundToMultiple(x, Pow10(digits) as real)
  }

  /** The multiple of 1 / p nearest to x, ties upwards. */
  function RoundToMultiple(x: real, p: real): (r: real)
    requires x >= 0.0 && p >= 1.0
    ensures r >= 0.0
    ensures x - 0.5 / p < r <= x + 0.5 / p
  {
    var k := (x * p + 0.5).Floor;
    assert k as real <= x * p + 0.5 < k as real + 1.0;
    ScaleBack(k as real, x, p);
    k as real / p
  }

  lemma ScaleBack(kr: real, x: real, p: real)
    requires p >= 1.0
    requires kr <= x * p + 0.5 < kr + 1.0
    ensures x - 0.5 / p < kr / p <= x + 0.5 / p
  {
    assert kr / p <= (x * p + 0.5) / p;
    assert (x * p + 0.5) / p == x + 0.5 / p;
    assert (kr + 1.0) / p > (x * p + 0.5) / p;
    assert (kr + 1.0) / p == kr / p + 1.0 / p;
  }

  /**
   * `Number(x.toFixed(digits))`: the nearest multiple of 1 / 10^digits, ties away
   * from zero (toFixed rounds the magnitude and keeps the sign).
   */
  function RoundTo(x: real, digits: nat): (r: real)
    ensures x - 0.5 / (Pow10(digits) as real) <= r <= x + 0.5 / (Pow10(digits) as real)
    ensures x >= 0.0 ==> r >= 0.0
  {
    if x >= 0.0 then RoundHalfUp(x, digits) else -RoundHalfUp(-x, digits)
  }

  lemma {:induction false} RoundHalfUpMonotone(x: real, y: real, digits: nat)
    requires 0.0 <= x <= y
    ensures RoundHalfUp(x, digits) <= RoundHalfUp(y, digits)
  {
    var p := Pow10(digits) as real;
    ScaleMonotoneAt(x, y, p);
    var kx := (x * p + 0.5).Floor;
    var ky := (y * p + 0.5).Floor;
    assert kx <= ky;
    DivMonotone(kx as real, ky as real, p);
    RoundToMultipleValue(x, p);
    RoundToMultipleValue(y, p);
  }

  lemma RoundToMultipleValue(x: real, p: real)
    requires x >= 0.0 && p >= 1.0
    ensures RoundToMultiple(x, p) == (x * p + 0.5).Floor as real / p
  {
  }

  lemma ScaleMonotoneAt(x: real, y: real, p: real)
    requires x <= y && p >= 1.0
    ensures x * p <= y * p
  {
    assert (y - x) * p >= 0.0;
  }

  lemma DivMonotone(a: real, b: real, p: real)
    requires a <= b && p > 0.0
    ensures a / p <= b / p
  {
    assert b / p - a / p == (b - a) / p;
  }

  /** Rounding never reverses the order of two values. */
  lemma {:induction false} RoundToMonotone(x: real, y: real, digits: nat)
    requires x <= y
    ensures RoundTo(x, digits) <= RoundTo(y, digits)
  {
    if 0.0 <= x {
      RoundHalfUpMonotone(x, y, digits);
    } else if y < 0.0 {
      RoundHalfUpMonotone(-y, -x, digits);
    }
  }

  /** A value that is already a multiple of 1 / 10^digits is left unchanged. */
  lemma {:induction false} RoundToExact(k: nat, digits: nat)
    ensures RoundTo(k as real / (Pow10(digits) as real), digits) == k as real / (Pow10(digits) as real)
  {
    var p := Pow10(digits) as real;
    var x := k as real / p;
    assert x * p == k as real;
    assert (x * p + 0.5).Floor == k;
    RoundToMultipleValue(x, p);
  }

  /** ASCII `toLowerCase` of one character. */
  function LowerChar(c: char): (d: char)
    ensures 'A' <= c <= 'Z' ==> d as int == c as int + 32
    ensures !('A' <= c <= 'Z') ==> d == c
  {
    if 'A' <= c <= 'Z' then (c as int + 32) as char else c
  }

  /** ASCII `toLowerCase`. */
  function Lower(s: string): (t: string)
    ensures |t| == |s|
    ensures forall i :: 0 <= i < |s| ==> t[i] == LowerChar(s[i])
  {
    if s == [] then [] else [LowerChar(s[0])] + Lower(s[1..])
  }

  /** t occurs in s starting at position i. */
  predicate OccursAt(s: string, t: string, i: int) {
    0 <= i && i + |t| <= |s| && s[i..i + |t|] == t
  }

  /** `s.includes(t)`: t occurs in s at some position. */
  function Includes(s: string, t: string): (b: bool)
    ensures t == "" ==> b
    ensures b <==> exists i :: OccursAt(s, t, i)
  {
    if |t| > |s| then false
    else if s[..|t|] == t then assert OccursAt(s, t, 0); true
    else
      var b := Includes(s[1..], t);
      assert b ==> exists i :: OccursAt(s, t, i) by {
        if b {
          var i :| OccursAt(s[1..], t, i);
          assert s[i + 1..i + 1 + |t|] == s[1..][i..i + |t|];
          assert OccursAt(s, t, i + 1);
        }
      }
      assert (exists i :: OccursAt(s, t, i)) ==> b by {
        if exists i :: OccursAt(s, t, i) {
          var i :| OccursAt(s, t, i);
          assert i != 0;
          assert s[1..][i - 1..i - 1 + |t|] == s[i..i + |t|];
          assert OccursAt(s[1..], t, i - 1);
        }
      }
      b
  }

  /** One end of `Array.prototype.slice`: negative offsets count from the end, then clamp. */
  function SliceBound(k: int, len: nat): (b: nat)
    ensures b <= len
    ensures 0 <= k <= len ==> b == k
    ensures k > len ==> b == len
  {
    if k < 0 then (if len + k < 0 then 0 else len + k) else if k > len then len else k
  }

  /** `s.slice(start, end)`. */
  function JsSlice<T>(s: seq<T>, start: int, end: int): (r: seq<T>)
    ensures SliceBound(start, |s|) <= SliceBound(end, |s|) ==> r == s[SliceBound(start, |s|)..SliceBound(end, |s|)]
    ensures SliceBound(end, |s|) < SliceBound(start, |s|) ==> r == []
  {
    var a := SliceBound(start, |s|);
    var b := SliceBound(end, |s|);
    if a <= b then s[a..b] else []
  }

  /** `Math.ceil(n / d)` for a natural n and a positive d. */
  function CeilDiv(n: nat, d: nat): (c: nat)
    requires d > 0
    ensures c * d >= n
    ensures c == 0 || (c - 1) * d < n
  {
    (n + d - 1) / d
  }
}
