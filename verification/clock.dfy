/**
 * The `MM:SS.mmm` clock text that both clients render: the JavaScript
 * integer-to-text and `padStart` steps it is built from, the truncating `%`
 * operator of JavaScript, and a reader that recovers the milliseconds from
 * the text.
 */
module Clock {
  import opened Wrappers

  predicate IsDigit(c: char) { '0' <= c <= '9' }

  predicate IsDigits(s: string) { forall i :: 0 <= i < |s| ==> IsDigit(s[i]) }

  function DigitChar(d: nat): (c: char)
    requires d < 10
    ensures IsDigit(c) && c as int - '0' as int == d
  {
    (d + '0' as int) as char
  }

  /** The number a string of decimal digits denotes (the empty string denotes 0). */
  function DigitsValue(s: string): nat
    requires IsDigits(s)
  {
    if s == [] then 0 else 10 * DigitsValue(s[..|s| - 1]) + (s[|s| - 1] as int - '0' as int)
  }

  /** `n.toString()` for a non-negative integer: its decimal digits, with no leading zero. */
  function NatToString(n: nat): (s: string)
    ensures |s| >= 1 && IsDigits(s)
  {
    if n < 10 then [DigitChar(n)] else NatToString(n / 10) + [DigitChar(n % 10)]
  }

  /** `i.toString()` for any integer: a minus sign in front of a negative one. */
  function IntToString(i: int): string {
    if i < 0 then "-" + NatToString(-i) else NatToString(i)
  }

  /** `s.padStart(width, c)`: `c` repeated in front of `s` up to `width` characters. */
  function PadStart(s: string, width: nat, c: char): (r: string)
    ensures |r| == if |s| >= width then |s| else width
    ensures r[|r| - |s|..] == s
    ensures forall i :: 0 <= i < |r| - |s| ==> r[i] == c
  {
    if |s| >= width then s else seq(width - |s|, _ => c) + s
  }

  /** One zero-padded field of the clock, `String(n).padStart(width, "0")`. */
  function Field(n: int, width: nat): string {
    PadStart(IntToString(n), width, '0')
  }

  /**
   * Text of the clock's shape: at least `MM:SS.mmm` long, a colon before the
   * last six characters, a point before the last three, digits elsewhere.
   */
  predicate ClockShaped(s: string) {
    && |s| >= 9 && s[|s| - 7] == ':' && s[|s| - 4] == '.'
    && forall i :: 0 <= i < |s| && i != |s| - 7 && i != |s| - 4 ==> IsDigit(s[i])
  }

  /** Digit fields of widths at least two, two and three joined by `:` and `.` have the clock's shape. */
  lemma JoinedShape(a: string, b: string, c: string)
    requires IsDigits(a) && IsDigits(b) && IsDigits(c) && |a| >= 2 && |b| == 2 && |c| == 3
    ensures ClockShaped(a + ":" + b + "." + c)
  {
    var r := a + ":" + b + "." + c;
    forall i | 0 <= i < |r| && i != |r| - 7 && i != |r| - 4 ensures IsDigit(r[i]) {
      if i < |a| {
        assert r[i] == a[i];
      } else if i < |a| + 3 {
        assert r[i] == b[i - |a| - 1];
      } else {
        assert r[i] == c[i - |a| - 4];
      }
    }
  }

  /** The text `MM:SS.mmm` assembled from its three fields. */
  function ClockText(minutes: int, seconds: int, millis: int): string {
    Field(minutes, 2) + ":" + Field(seconds, 2) + "." + Field(millis, 3)
  }

  /**
   * In-range fields give text of the clock's shape, exactly nine characters
   * long while the minutes have at most two digits.
   */
  lemma ClockTextShape(minutes: nat, seconds: nat, millis: nat)
    requires seconds < 60 && millis < 1000
    ensures ClockShaped(ClockText(minutes, seconds, millis))
    ensures minutes < 100 ==> |ClockText(minutes, seconds, millis)| == 9
  {
    var a, b, c := Field(minutes, 2), Field(seconds, 2), Field(millis, 3);
    FieldValue(minutes, 2);
    FieldValue(seconds, 2);
    FieldValue(millis, 3);
    TwoDigitText(seconds);
    ThreeDigitText(millis);
    assert minutes < 100 ==> |a| == 2 by {
      if minutes < 100 {
        TwoDigitText(minutes);
      }
    }
    JoinedShape(a, b, c);
    assert ClockText(minutes, seconds, millis) == a + ":" + b + "." + c;
  }

  /**
   * Reads clock text back: digits, a colon, two digits, a point and three
   * digits; the value is the number of milliseconds the text stands for.
   */
  function ParseClock(s: string): Option<nat> {
    var n := |s|;
    if n >= 7 && s[n - 7] == ':' && s[n - 4] == '.'
       && IsDigits(s[..n - 7]) && IsDigits(s[n - 6..n - 4]) && IsDigits(s[n - 3..])
    then Some(60000 * DigitsValue(s[..n - 7]) + 1000 * DigitsValue(s[n - 6..n - 4]) + DigitsValue(s[n - 3..]))
    else None
  }

  /** JavaScript's `Math.trunc`: rounds toward zero. */
  function Trunc(x: real): (t: int)
    ensures x >= 0.0 ==> t == x.Floor
  {
    if x >= 0.0 then x.Floor else -((-x).Floor)
  }

  /** JavaScript's `a % b` on numbers: the remainder takes the sign of `a`. */
  function JsRem(a: real, b: real): real
    requires b != 0.0
  {
    a - b * Trunc(a / b) as real
  }

  /** JavaScript's `a % b` on integers, for a positive divisor. */
  function JsRemInt(a: int, b: int): (r: int)
    requires b > 0
    ensures a >= 0 ==> r == a % b
  {
    if a >= 0 then a % b else -((-a) % b)
  }

  lemma {:induction false} DigitsValueOfText(n: nat)
    ensures DigitsValue(NatToString(n)) == n
  {
    if n >= 10 {
      DigitsValueOfText(n / 10);
      var s := NatToString(n);
      assert s[..|s| - 1] == NatToString(n / 10);
    }
  }

  /** Leading zeros do not change the value of a digit string. */
  lemma {:induction false} LeadingZerosValue(k: nat, s: string)
    requires IsDigits(s)
    ensures IsDigits(seq(k, _ => '0') + s)
    ensures DigitsValue(seq(k, _ => '0') + s) == DigitsValue(s)
  {
    var z: string := seq(k, _ => '0');
    if s == [] {
      assert z + s == z;
      ZerosValue(k);
    } else {
      LeadingZerosValue(k, s[..|s| - 1]);
      assert (z + s)[..|z + s| - 1] == z + s[..|s| - 1];
    }
  }

  lemma {:induction false} ZerosValue(k: nat)
    ensures IsDigits(seq(k, _ => '0'))
    ensures DigitsValue(seq(k, _ => '0')) == 0
  {
    if k > 0 {
      ZerosValue(k - 1);
      assert seq(k, _ => '0')[..k - 1] == seq(k - 1, _ => '0');
    }
  }

  /** A padded field of a non-negative number is all digits and denotes the number. */
  lemma FieldValue(n: nat, width: nat)
    ensures IsDigits(Field(n, width)) && DigitsValue(Field(n, width)) == n
    ensures |Field(n, width)| >= width
  {
    var s := NatToString(n);
    DigitsValueOfText(n);
    if |s| < width {
      LeadingZerosValue(width - |s|, s);
    }
  }

  lemma TwoDigitText(n: nat)
    requires n < 100
    ensures |NatToString(n)| <= 2
  {
  }

  lemma ThreeDigitText(n: nat)
    requires n < 1000
    ensures |NatToString(n)| <= 3
  {
    if n >= 10 { TwoDigitText(n / 10); }
  }

  /** The reader splits text of the clock's shape back into its three fields. */
  lemma ParseFields(a: string, b: string, c: string)
    requires IsDigits(a) && IsDigits(b) && IsDigits(c) && |b| == 2 && |c| == 3
    ensures var r := ParseClock(a + ":" + b + "." + c); r.Some? && r.value == 60000 * DigitsValue(a) + 1000 * DigitsValue(b) + DigitsValue(c)
  {
    var s := a + ":" + b + "." + c;
    var n := |s|;
    assert s[..n - 7] == a;
    assert s[n - 6..n - 4] == b;
    assert s[n - 3..] == c;
  }

  /** Reading the clock text back gives the milliseconds its fields stand for. */
  lemma ClockTextRoundTrip(minutes: nat, seconds: nat, millis: nat)
    requires seconds < 60 && millis < 1000
    ensures var r := ParseClock(ClockText(minutes, seconds, millis));
            r.Some? && r.value == 60000 * minutes + 1000 * seconds + millis
  {
    FieldValue(minutes, 2);
    FieldValue(seconds, 2);
    FieldValue(millis, 3);
    TwoDigitText(seconds);
    ThreeDigitText(millis);
    var a, b, c := Field(minutes, 2), Field(seconds, 2), Field(millis, 3);
    assert |b| == 2 && |c| == 3;
    ParseFields(a, b, c);
    assert ClockText(minutes, seconds, millis) == a + ":" + b + "." + c;
  }

  /** Flooring a real quotient by a positive whole divisor is integer division of the floor. */
  lemma FloorDiv(x: real, k: int)
    requires x >= 0.0 && k > 0
    ensures (x / k as real).Floor == x.Floor / k
  {
    var n := x.Floor;
    var q := n / k;
    assert q * k <= n < q * k + k;
    assert (q * k) as real <= x < (q * k + k) as real;
    assert q as real * k as real <= x < (q + 1) as real * k as real;
    assert q as real <= x / k as real < (q + 1) as real;
  }

  /** On integers, flooring the real quotient by a positive divisor is Dafny's division. */
  lemma FloorIntDiv(a: int, k: int)
    requires k > 0
    ensures (a as real / k as real).Floor == a / k
  {
    var q := a / k;
    assert q * k <= a < q * k + k;
    assert q as real * k as real <= a as real < (q + 1) as real * k as real;
    assert q as real <= a as real / k as real < (q + 1) as real;
  }

  /** Minutes, seconds-within-minute and milliseconds-within-second put a count back together. */
  lemma SplitMillis(n: int)
    ensures 60000 * (n / 60000) + 1000 * ((n / 1000) % 60) + n % 1000 == n
    ensures (n / 1000) / 60 == n / 60000
    ensures (n % 60000) / 1000 == (n / 1000) % 60
  {
    var m, r := n / 60000, n % 60000;
    var b, c := r / 1000, r % 1000;
    assert n == 1000 * (60 * m + b) + c;
    assert n / 1000 == 60 * m + b && n % 1000 == c;
    assert (60 * m + b) / 60 == m && (60 * m + b) % 60 == b;
  }
}
