/**
 * The numeric text the form works with: browser `<input type="number">` values are strings,
 * read with `Number.parseFloat` and written back with `Number.prototype.toFixed(2)`.
 * Numbers are exact reals here; floating-point rounding is not modelled.
 */
module Numbers {
  import opened Wrappers

  predicate IsDigit(c: char) {
    '0' <= c <= '9'
  }

  function DigitValue(c: char): (d: nat)
    requires IsDigit(c)
    ensures d < 10
  {
    (c as int) - ('0' as int)
  }

  function DigitChar(d: nat): (c: char)
    requires d < 10
    ensures IsDigit(c) && DigitValue(c) == d
  {
    ((('0' as int) + d) as char)
  }

  predicate AllDigits(s: string) {
    forall i :: 0 <= i < |s| ==> IsDigit(s[i])
  }

  /** The value of a string of decimal digits, most significant first. */
  function DigitsValue(s: string): nat
    requires AllDigits(s)
    decreases |s|
  {
    if s == [] then 0 else DigitsValue(s[..|s| - 1]) * 10 + DigitValue(s[|s| - 1])
  }

  function Pow10(k: nat): (p: nat)
    ensures p >= 1
  {
    if k == 0 then 1 else 10 * Pow10(k - 1)
  }

  /** JavaScript's `String(n)` for a non-negative integer: its decimal digits, no leading zero. */
  function NatToString(n: nat): (s: string)
    ensures 1 <= |s| && AllDigits(s)
    ensures |s| > 1 ==> s[0] != '0'
  {
    if n < 10 then [DigitChar(n)] else NatToString(n / 10) + [DigitChar(n % 10)]
  }

  lemma {:induction false} NatToStringValue(n: nat)
    ensures DigitsValue(NatToString(n)) == n
  {
    if n >= 10 {
      var s := NatToString(n);
      assert s[..|s| - 1] == NatToString(n / 10);
      NatToStringValue(n / 10);
    }
  }

  /** `Number(s)` for the strings the form's read-only day counter can hold: `None` is `NaN`. */
  function NumberOfDigits(s: string): (r: Option<nat>)
    ensures r.Some? <==> s != [] && AllDigits(s)
  {
    if s != [] && AllDigits(s) then Some(DigitsValue(s)) else None
  }

  lemma NumberOfNatToString(n: nat)
    ensures NumberOfDigits(NatToString(n)) == Some(n)
  {
    NatToStringValue(n);
  }

  /** Length of the longest prefix of `s` made of digits. */
  function DigitRun(s: string): (k: nat)
    ensures k <= |s| && AllDigits(s[..k])
    ensures k == |s| || !IsDigit(s[k])
  {
    if s != [] && IsDigit(s[0]) then
      var k := 1 + DigitRun(s[1..]);
      assert s[..k] == [s[0]] + s[1..][..k - 1];
      k
    else 0
  }

  lemma {:induction false} DigitRunOfDigits(d: string, rest: string)
    requires AllDigits(d)
    requires rest == [] || !IsDigit(rest[0])
    ensures DigitRun(d + rest) == |d|
  {
    if d != [] {
      assert (d + rest)[1..] == d[1..] + rest;
      DigitRunOfDigits(d[1..], rest);
    }
  }

  /** The white space `parseFloat` skips before the number (the ASCII part of it). */
  predicate IsSpace(c: char) {
    c == ' ' || c == '\t' || c == '\n' || c == '\r' || c == '\U{000B}' || c == '\U{000C}'
  }

  function TrimStart(s: string): (t: string)
    ensures |t| <= |s|
    ensures t == [] || !IsSpace(t[0])
  {
    if s != [] && IsSpace(s[0]) then TrimStart(s[1..]) else s
  }

  /** The value of the decimal literal with integer digits `whole` and fraction digits `frac`. */
  function DecimalValue(whole: string, frac: string): (v: real)
    requires AllDigits(whole) && AllDigits(frac)
    ensures v >= 0.0
  {
    DigitsValue(whole) as real + DigitsValue(frac) as real / Pow10(|frac|) as real
  }

  /** The unsigned decimal literal at the start of `t`: digits, then optionally `.` and digits. */
  function ParseUnsigned(t: string): (r: Option<real>)
    ensures r.Some? ==> r.value >= 0.0
  {
    var i := DigitRun(t);
    var frac := if i < |t| && t[i] == '.' then t[i + 1..][..DigitRun(t[i + 1..])] else [];
    if i == 0 && frac == [] then None else Some(DecimalValue(t[..i], frac))
  }

  /** The literal is there exactly when the text starts with a digit, or with `.` and a digit. */
  lemma ParseUnsignedDefined(t: string)
    ensures ParseUnsigned(t).Some? <==> (t != [] && IsDigit(t[0])) || (|t| >= 2 && t[0] == '.' && IsDigit(t[1]))
  {
  }

  /**
   * `Number.parseFloat(s)`: skip leading white space, read an optional sign and the longest
   * decimal literal there, ignore whatever follows; `None` is `NaN` (nothing numeric at the start).
   */
  function ParseFloat(s: string): Option<real> {
    var t := TrimStart(s);
    if t != [] && t[0] == '-' then
      match ParseUnsigned(t[1..])
      case Some(v) => Some(-v)
      case None => None
    else if t != [] && t[0] == '+' then ParseUnsigned(t[1..])
    else ParseUnsigned(t)
  }

  /** JavaScript's `x || d` on a number: `NaN` and zero are falsy and give `d`. */
  function OrDefault(x: Option<real>, d: real): real {
    if x.None? || x.value == 0.0 then d else x.value
  }

  lemma OrDefaultCases(x: Option<real>, d: real)
    ensures OrDefault(x, d) == d || (x.Some? && OrDefault(x, d) == x.value != 0.0)
    ensures x.Some? && x.value != 0.0 ==> OrDefault(x, d) == x.value
  {
  }

  /** `Number.parseFloat(s) || 0`: how the form reads an amount. */
  function AmountOf(s: string): real {
    OrDefault(ParseFloat(s), 0.0)
  }

  /** `Number.parseFloat(s) || 1`: how the form reads an FX rate. */
  function RateOf(s: string): real {
    OrDefault(ParseFloat(s), 1.0)
  }

  /** Hundredths in `m` rounded to the nearest integer, halves upward (m is a magnitude). */
  function CentsOf(m: real): (n: nat)
    requires m >= 0.0
    ensures n as real <= m * 100.0 + 0.5 < n as real + 1.0
  {
    (m * 100.0 + 0.5).Floor
  }

  function Abs(x: real): (a: real)
    ensures a >= 0.0 && (a == x || a == -x)
  {
    if x < 0.0 then -x else x
  }

  /** The two-digit fraction of a cent count below 100. */
  function TwoDigits(r: nat): (s: string)
    requires r < 100
    ensures |s| == 2 && AllDigits(s)
  {
    [DigitChar(r / 10), DigitChar(r % 10)]
  }

  lemma TwoDigitsValue(r: nat)
    requires r < 100
    ensures DigitsValue(TwoDigits(r)) == r
  {
    var d := TwoDigits(r);
    var hi := d[..1];
    assert hi[..0] == [];
    assert DigitsValue(hi) == r / 10;
    assert d[..|d| - 1] == hi;
    assert DigitsValue(d) == (r / 10) * 10 + r % 10;
  }

  /** `parseFloat` of the unsigned text `toFixed(2)` writes for q units and r hundredths. */
  lemma ParseFixedBody(q: nat, r: nat)
    requires r < 100
    ensures ParseUnsigned(NatToString(q) + "." + TwoDigits(r)) == Some(q as real + r as real / 100.0)
  {
    var body := NatToString(q) + "." + TwoDigits(r);
    var tail := "." + TwoDigits(r);
    assert body == NatToString(q) + tail;
    DigitRunOfDigits(NatToString(q), tail);
    var i := |NatToString(q)|;
    assert body[..i] == NatToString(q);
    assert body[i + 1..] == TwoDigits(r);
    DigitRunOfDigits(TwoDigits(r), []);
    assert TwoDigits(r) + [] == TwoDigits(r);
    assert TwoDigits(r)[..2] == TwoDigits(r);
    NatToStringValue(q);
    TwoDigitsValue(r);
    assert Pow10(2) == 100;
  }

  /** The text `toFixed(2)` writes for n hundredths, after a minus sign when `negative`. */
  function Fixed2Text(negative: bool, n: nat): string {
    (if negative then "-" else "") + NatToString(n / 100) + "." + TwoDigits(n % 100)
  }

  /**
   * `x.toFixed(2)`: a minus sign when x is negative, then the magnitude rounded to the nearest
   * hundredth (a tie goes to the larger magnitude), written with two fraction digits.
   */
  function ToFixed2(x: real): string {
    Fixed2Text(x < 0.0, CentsOf(Abs(x)))
  }

  /** The number `ToFixed2(x)` stands for. */
  function Fixed2Value(x: real): real {
    var v := CentsOf(Abs(x)) as real / 100.0;
    if x < 0.0 then -v else v
  }

  /** `toFixed(2)` picks a value within half a hundredth of its argument. */
  lemma Fixed2Nearest(x: real)
    ensures x >= 0.0 ==> Fixed2Value(x) - x <= 0.005 && x - Fixed2Value(x) < 0.005
    ensures x < 0.0 ==> Fixed2Value(x) - x < 0.005 && x - Fixed2Value(x) <= 0.005
  {
  }

  /** What `toFixed(2)` writes, `parseFloat` reads back exactly. */
  lemma CentsSplit(n: nat)
    ensures (n / 100) as real + (n % 100) as real / 100.0 == n as real / 100.0
  {
    var q, r := n / 100, n % 100;
    assert n == 100 * q + r;
    assert n as real == 100.0 * (q as real) + r as real;
  }

  /** On text that starts with a digit, `parseFloat` reads the unsigned literal there. */
  lemma ParseFloatOfDigitStart(u: string)
    requires u != [] && IsDigit(u[0])
    ensures ParseUnsigned(u).Some? && ParseFloat(u) == ParseUnsigned(u)
  {
  }

  /** After a minus sign, `parseFloat` negates the unsigned literal. */
  lemma ParseFloatOfMinus(u: string)
    requires u != [] && IsDigit(u[0])
    ensures ParseUnsigned(u).Some? && ParseFloat("-" + u) == Some(-ParseUnsigned(u).value)
  {
    var t := "-" + u;
    assert TrimStart(t) == t;
    assert t[0] == '-' && t[1..] == u;
    assert ParseUnsigned(u).Some?;
  }

  /** The number the unsigned part of `Fixed2Text` is read back as. */
  lemma Fixed2BodyValue(n: nat)
    ensures ParseUnsigned(Fixed2Text(false, n)) == Some(n as real / 100.0)
  {
    var body := NatToString(n / 100) + "." + TwoDigits(n % 100);
    assert Fixed2Text(false, n) == body;
    ParseFixedBody(n / 100, n % 100);
    CentsSplit(n);
  }

  /** `parseFloat` reads `Fixed2Text` back as n hundredths, negated after a minus sign. */
  lemma Fixed2TextRoundTrip(negative: bool, n: nat)
    ensures ParseFloat(Fixed2Text(negative, n))
         == Some(if negative then -(n as real / 100.0) else n as real / 100.0)
  {
    var body := Fixed2Text(false, n);
    Fixed2BodyValue(n);
    if negative {
      assert Fixed2Text(true, n) == "-" + body;
      ParseFloatOfMinus(body);
    } else {
      ParseFloatOfDigitStart(body);
    }
  }

  /** `parseFloat` reads the text `toFixed(2)` writes back as the rounded value. */
  lemma ToFixed2RoundTrip(x: real)
    ensures ParseFloat(ToFixed2(x)) == Some(Fixed2Value(x))
  {
    var n := CentsOf(Abs(x));
    Fixed2TextRoundTrip(x < 0.0, n);
    assert Fixed2Value(x) == if x < 0.0 then -(n as real / 100.0) else n as real / 100.0;
  }
}
