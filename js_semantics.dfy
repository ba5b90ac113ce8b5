/**
 * The few pieces of JavaScript runtime behaviour the dashboard relies on:
 * `Math.round`, rendering an integer inside a template literal, `%` on
 * integers, ASCII `toLowerCase` and `String.prototype.includes`.
 */
module JsSemantics {
  import opened Wrappers

  // ---------------------------------------------------------------------
  // Math.round

  /** `Math.round`: the nearest integer, a tie going toward +infinity. */
  function Round(x: real): (n: int)
    ensures n as real - 0.5 <= x < n as real + 0.5
  {
    (x + 0.5).Floor
  }

  /** The half-open window of `Round` pins its result down. */
  lemma RoundUnique(x: real, n: int)
    requires n as real - 0.5 <= x < n as real + 0.5
    ensures Round(x) == n
  {
  }

  // ---------------------------------------------------------------------
  // `%` on integers truncates toward zero: the remainder takes the sign of
  // the dividend.

  function JsRemainder(a: int, b: int): (r: int)
    requires b > 0
    ensures -b < r < b
    ensures a >= 0 ==> r >= 0
    ensures a <= 0 ==> r <= 0
    ensures a >= 0 ==> r == a % b
    ensures a == b * (if a >= 0 then a / b else -((-a) / b)) + r
  {
    if a >= 0 then a % b else -((-a) % b)
  }

  // ---------------------------------------------------------------------
  // Integers rendered as decimal text (`${n}` for an integral number).

  predicate IsDigit(c: char) {
    '0' <= c <= '9'
  }

  predicate AllDigits(s: string) {
    forall i :: 0 <= i < |s| ==> IsDigit(s[i])
  }

  predicate StartsWithDigit(s: string) {
    |s| > 0 && IsDigit(s[0])
  }

  function DigitChar(d: nat): (c: char)
    requires d < 10
    ensures IsDigit(c)
  {
    ('0' as int + d) as char
  }

  function DigitValue(c: char): (d: nat)
    requires IsDigit(c)
    ensures d < 10
  {
    c as int - '0' as int
  }

  /** Decimal digits of `n`, most significant first, without leading zeros. */
  function NatToString(n: nat): (s: string)
    ensures |s| > 0 && AllDigits(s)
    ensures |s| > 1 ==> s[0] != '0'
    ensures s[0] == '0' <==> n == 0
    decreases n
  {
    if n < 10 then [DigitChar(n)] else NatToString(n / 10) + [DigitChar(n % 10)]
  }

  /** Decimal text of an integer: a minus sign for negatives, never "-0". */
  function IntToString(n: int): (s: string)
    ensures |s| > 0
    ensures s[0] == '-' <==> n < 0
  {
    if n < 0 then "-" + NatToString(-n) else NatToString(n)
  }

  /**
   * The integer at the head of `s` is written as JavaScript writes one: its
   * run of digits starts with '0' only when that run is the single digit of
   * zero, and then no minus sign precedes it.
   */
  predicate CanonicalInteger(s: string) {
    var negative := |s| > 0 && s[0] == '-';
    var body := if negative then s[1..] else s;
    |body| > 0 && (body[0] == '0' ==> !negative && LeadingDigitCount(body) == 1)
  }

  /** Length of the run of digits that `s` starts with. */
  function LeadingDigitCount(s: string): (k: nat)
    ensures k <= |s|
    ensures AllDigits(s[..k])
    ensures k < |s| ==> !IsDigit(s[k])
  {
    if s != [] && IsDigit(s[0]) then 1 + LeadingDigitCount(s[1..]) else 0
  }

  /** The number a run of decimal digits denotes. */
  function DigitsValue(ds: string): nat
    requires AllDigits(ds)
  {
    if ds == [] then 0 else DigitsValue(ds[..|ds| - 1]) * 10 + DigitValue(ds[|ds| - 1])
  }

  /**
   * Reads a displayed reading "<integer><unit>" back into the integer and
   * the unit text; None when the text does not start with an integer.
   */
  function ParseReading(s: string): Option<(int, string)> {
    var negative := |s| > 0 && s[0] == '-';
    var body := if negative then s[1..] else s;
    var k := LeadingDigitCount(body);
    if k == 0 then None
    else
      var v: int := DigitsValue(body[..k]);
      Some((if negative then -v else v, body[k..]))
  }

  lemma {:induction false} NatToStringValue(n: nat)
    ensures DigitsValue(NatToString(n)) == n
    decreases n
  {
    if n >= 10 {
      var s := NatToString(n);
      NatToStringValue(n / 10);
      assert s[..|s| - 1] == NatToString(n / 10);
    }
  }

  lemma {:induction false} LeadingDigitsOfAppend(ds: string, rest: string)
    requires AllDigits(ds)
    requires !StartsWithDigit(rest)
    ensures LeadingDigitCount(ds + rest) == |ds|
    decreases |ds|
  {
    if ds != [] {
      assert (ds + rest)[1..] == ds[1..] + rest;
      LeadingDigitsOfAppend(ds[1..], rest);
    } else {
      assert ds + rest == rest;
    }
  }

  /** Rendering an integer followed by a unit that does not start with a digit can be read back. */
  lemma ReadingRoundTrip(n: int, unit: string)
    requires !StartsWithDigit(unit)
    ensures ParseReading(IntToString(n) + unit) == Some((n, unit))
  {
    var m: nat := if n < 0 then -n else n;
    var ds := NatToString(m);
    var s := IntToString(n) + unit;
    var body := ds + unit;
    if n < 0 {
      assert s == "-" + body;
      assert s[1..] == body;
    } else {
      assert s == body;
      assert s[0] == ds[0];
    }
    LeadingDigitsOfAppend(ds, unit);
    assert body[..|ds|] == ds;
    assert body[|ds|..] == unit;
    NatToStringValue(m);
  }

  /** The rendering of an integer followed by a unit is canonical: no "-0", no leading zero. */
  lemma RenderingCanonical(n: int, unit: string)
    requires !StartsWithDigit(unit)
    ensures CanonicalInteger(IntToString(n) + unit)
  {
    var m: nat := if n < 0 then -n else n;
    var ds := NatToString(m);
    var s := IntToString(n) + unit;
    var body := ds + unit;
    if n < 0 {
      assert s == "-" + body;
      assert s[1..] == body;
    } else {
      assert s == body;
      assert s[0] == ds[0];
    }
    assert body[0] == ds[0];
    LeadingDigitsOfAppend(ds, unit);
  }

  /** A run of digits without a leading zero is the text of its own value. */
  lemma {:induction false} DigitsCanonical(ds: string)
    requires |ds| > 0 && AllDigits(ds)
    requires ds[0] == '0' ==> |ds| == 1
    ensures NatToString(DigitsValue(ds)) == ds
    decreases |ds|
  {
    var init := ds[..|ds| - 1];
    var d := DigitValue(ds[|ds| - 1]);
    assert DigitChar(d) == ds[|ds| - 1];
    if |ds| == 1 {
      assert DigitsValue(ds) == d;
      assert ds == [ds[0]];
    } else {
      assert init[0] == ds[0];
      DigitsCanonical(init);
      var v := DigitsValue(init);
      assert v != 0;
      assert DigitsValue(ds) == v * 10 + d;
      assert ds == init + [ds[|ds| - 1]];
    }
  }

  /** The body of a canonical reading is the text of its digits' value followed by the rest. */
  lemma DigitRunUnique(body: string, k: nat)
    requires k == LeadingDigitCount(body) > 0
    requires body[0] == '0' ==> k == 1
    ensures body == NatToString(DigitsValue(body[..k])) + body[k..]
  {
    var ds := body[..k];
    assert |ds| == k && AllDigits(ds);
    assert ds[0] == body[0];
    DigitsCanonical(ds);
    assert body == ds + body[k..];
  }

  /**
   * A canonical reading is determined by what it reads back as: it is the
   * rendering of its integer followed by its unit.
   */
  lemma CanonicalReadingUnique(s: string, n: int, unit: string)
    requires CanonicalInteger(s)
    requires ParseReading(s) == Some((n, unit))
    ensures s == IntToString(n) + unit
  {
    var negative := |s| > 0 && s[0] == '-';
    var body := if negative then s[1..] else s;
    var k := LeadingDigitCount(body);
    var v: int := DigitsValue(body[..k]);
    assert n == (if negative then -v else v) && unit == body[k..];
    DigitRunUnique(body, k);
    if negative {
      SignedRendering(s, v, unit);
    }
  }

  /** A minus sign before the canonical text of a non-zero value renders its negation. */
  lemma SignedRendering(s: string, v: nat, unit: string)
    requires |s| > 0 && s[0] == '-'
    requires s[1..] == NatToString(v) + unit
    requires s[1] != '0'
    ensures s == IntToString(-(v as int)) + unit
  {
    assert s == [s[0]] + s[1..];
  }

  // ---------------------------------------------------------------------
  // String.prototype.toLowerCase, restricted to ASCII letters.

  function LowerChar(c: char): char {
    if 'A' <= c <= 'Z' then (c as int + 32) as char else c
  }

  function ToLowerCase(s: string): (r: string)
    ensures |r| == |s|
    ensures forall i :: 0 <= i < |s| ==> r[i] == LowerChar(s[i])
  {
    if s == [] then [] else [LowerChar(s[0])] + ToLowerCase(s[1..])
  }

  /** Lower-casing twice is lower-casing once. */
  lemma ToLowerCaseIdempotent(s: string)
    ensures ToLowerCase(ToLowerCase(s)) == ToLowerCase(s)
  {
    var once := ToLowerCase(s);
    var twice := ToLowerCase(once);
    assert forall i :: 0 <= i < |s| ==> twice[i] == once[i];
  }

  // ---------------------------------------------------------------------
  // String.prototype.includes

  /** `s.includes(sub)`: `sub` occurs in `s` at some position. */
  predicate Includes(s: string, sub: string)
    decreases |s|
  {
    if |sub| > |s| then false
    else if s[..|sub|] == sub then true
    else |s| > 0 && Includes(s[1..], sub)
  }

  /** `sub` occurs in `s` starting at position `i`. */
  predicate OccursAt(s: string, sub: string, i: nat) {
    i + |sub| <= |s| && s[i..i + |sub|] == sub
  }

  /** `Includes` agrees with "there is a position where `sub` occurs", both ways. */
  lemma {:induction false} IncludesIff(s: string, sub: string)
    ensures Includes(s, sub) <==> exists i: nat :: OccursAt(s, sub, i)
    decreases |s|
  {
    if |sub| > |s| {
    } else if s[..|sub|] == sub {
      assert OccursAt(s, sub, 0);
    } else {
      assert |s| > 0;
      IncludesIff(s[1..], sub);
      if Includes(s[1..], sub) {
        var j: nat :| OccursAt(s[1..], sub, j);
        OccursAtTail(s, sub, j + 1);
      }
      if i: nat :| OccursAt(s, sub, i) {
        assert i != 0;
        OccursAtTail(s, sub, i);
      }
    }
  }

  /** An occurrence past the first position is an occurrence in the tail, one position earlier. */
  lemma OccursAtTail(s: string, sub: string, i: nat)
    requires |s| > 0 && i > 0
    ensures OccursAt(s, sub, i) <==> OccursAt(s[1..], sub, i - 1)
  {
    if i + |sub| <= |s| {
      assert s[1..][i - 1..i - 1 + |sub|] == s[i..i + |sub|];
    }
  }

  /** A witness position establishes `Includes`. */
  lemma IncludesAt(s: string, sub: string, i: nat)
    requires OccursAt(s, sub, i)
    ensures Includes(s, sub)
  {
    IncludesIff(s, sub);
  }
}
