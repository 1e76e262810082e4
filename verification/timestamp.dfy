/**
 * The backup timestamp: Go's `time.Now().Format("20060102150405")`
 * (namespace-webhook/main.go:223), i.e. year, month, day, hour, minute and
 * second written in decimal, each zero-padded to a minimum width (4 for the
 * year, 2 for the others). The clock itself is a parameter.
 */
module Timestamp {
  import opened Wrappers

  datatype DateTime = DateTime(year: nat, month: nat, day: nat, hour: nat, minute: nat, second: nat)

  /** A calendar time with a four-digit year, as the clock hands out today. */
  predicate Valid(t: DateTime) {
    t.year < 10000 && 1 <= t.month <= 12 && 1 <= t.day <= 31
    && t.hour < 24 && t.minute < 60 && t.second < 60
  }

  predicate IsDigit(c: char) { '0' <= c <= '9' }

  predicate AllDigits(s: seq<char>) { forall i :: 0 <= i < |s| ==> IsDigit(s[i]) }

  function DigitChar(d: nat): char
    requires d < 10
  {
    ('0' as int + d) as char
  }

  function DigitValue(c: char): nat
    requires IsDigit(c)
  {
    c as int - '0' as int
  }

  function Pow10(k: nat): (p: nat)
    ensures p >= 1
  {
    if k == 0 then 1 else 10 * Pow10(k - 1)
  }

  /** The decimal digits of n, most significant first, without leading zeros. */
  function Digits(n: nat): (s: seq<char>)
    ensures 1 <= |s| && AllDigits(s)
  {
    if n < 10 then [DigitChar(n)] else Digits(n / 10) + [DigitChar(n % 10)]
  }

  function Zeros(k: nat): (s: seq<char>)
    ensures |s| == k && forall i :: 0 <= i < k ==> s[i] == '0'
  {
    seq(k, _ => '0')
  }

  /** Go's minimum-width decimal rendering: left-padded with zeros, never truncated. */
  function Padded(n: nat, width: nat): (s: seq<char>)
    ensures |s| == if |Digits(n)| < width then width else |Digits(n)|
    ensures AllDigits(s)
  {
    var d := Digits(n);
    (if |d| < width then Zeros(width - |d|) else []) + d
  }

  /** The layout "20060102150405". */
  function Format(t: DateTime): (s: string)
    ensures AllDigits(s) && |s| >= 14
  {
    Padded(t.year, 4) + Padded(t.month, 2) + Padded(t.day, 2)
    + Padded(t.hour, 2) + Padded(t.minute, 2) + Padded(t.second, 2)
  }

  /** The value of a string of decimal digits. */
  function NumberValue(s: seq<char>): nat
    requires AllDigits(s)
  {
    if s == [] then 0 else 10 * NumberValue(s[..|s| - 1]) + DigitValue(s[|s| - 1])
  }

  /** Reads a 14-digit timestamp back: the inverse of Format on valid times. */
  function Parse(s: string): Option<DateTime> {
    if |s| == 14 && AllDigits(s) then
      Some(DateTime(NumberValue(s[..4]), NumberValue(s[4..6]), NumberValue(s[6..8]),
                    NumberValue(s[8..10]), NumberValue(s[10..12]), NumberValue(s[12..14])))
    else None
  }

  lemma {:induction false} DigitsFit(n: nat, width: nat)
    requires 1 <= width && n < Pow10(width)
    ensures |Digits(n)| <= width
  {
    if n >= 10 {
      assert Pow10(1) == 10;
      assert n / 10 < Pow10(width - 1);
      DigitsFit(n / 10, width - 1);
    }
  }

  lemma {:induction false} ValueOfDigits(n: nat)
    ensures NumberValue(Digits(n)) == n
  {
    if n >= 10 {
      var d := Digits(n);
      assert d[..|d| - 1] == Digits(n / 10);
      ValueOfDigits(n / 10);
    }
  }

  lemma {:induction false} ValueOfZeros(k: nat)
    ensures NumberValue(Zeros(k)) == 0
  {
    if k > 0 {
      assert Zeros(k)[..k - 1] == Zeros(k - 1);
      ValueOfZeros(k - 1);
    }
  }

  /** Leading zeros do not change a number's value. */
  lemma {:induction false} LeadingZeros(k: nat, s: seq<char>)
    requires AllDigits(s)
    ensures AllDigits(Zeros(k) + s) && NumberValue(Zeros(k) + s) == NumberValue(s)
  {
    var t := Zeros(k) + s;
    if s == [] {
      assert t == Zeros(k);
      ValueOfZeros(k);
    } else {
      assert t[..|t| - 1] == Zeros(k) + s[..|s| - 1];
      LeadingZeros(k, s[..|s| - 1]);
    }
  }

  lemma {:induction false} ValueOfPadded(n: nat, width: nat)
    ensures NumberValue(Padded(n, width)) == n
  {
    var d := Digits(n);
    ValueOfDigits(n);
    if |d| < width {
      assert Padded(n, width) == Zeros(width - |d|) + d;
      LeadingZeros(width - |d|, d);
    } else {
      assert Padded(n, width) == [] + d;
      assert [] + d == d;
    }
  }

  /** A field below 10^width is rendered in exactly width digits. */
  lemma PaddedWidth(n: nat, width: nat)
    requires 1 <= width && n < Pow10(width)
    ensures |Padded(n, width)| == width
  {
    DigitsFit(n, width);
  }

  /** A valid time renders as exactly fourteen decimal digits. */
  lemma FormatShape(t: DateTime)
    requires Valid(t)
    ensures |Format(t)| == 14 && AllDigits(Format(t))
  {
    assert Pow10(2) == 100;
    assert Pow10(4) == 10000;
    PaddedWidth(t.year, 4);
    PaddedWidth(t.month, 2);
    PaddedWidth(t.day, 2);
    PaddedWidth(t.hour, 2);
    PaddedWidth(t.minute, 2);
    PaddedWidth(t.second, 2);
  }

  /** Round trip: reading a formatted valid time gives the time back. */
  lemma ParseFormat(t: DateTime)
    requires Valid(t)
    ensures Parse(Format(t)) == Some(t)
  {
    FormatShape(t);
    assert Pow10(2) == 100;
    assert Pow10(4) == 10000;
    PaddedWidth(t.year, 4);
    PaddedWidth(t.month, 2);
    PaddedWidth(t.day, 2);
    PaddedWidth(t.hour, 2);
    PaddedWidth(t.minute, 2);
    PaddedWidth(t.second, 2);
    var y, mo, d := Padded(t.year, 4), Padded(t.month, 2), Padded(t.day, 2);
    var h, mi, se := Padded(t.hour, 2), Padded(t.minute, 2), Padded(t.second, 2);
    // Peel the fields off one at a time, front to back.
    var r4 := mi + se;
    var r3 := h + r4;
    var r2 := d + r3;
    var r1 := mo + r2;
    var s := Format(t);
    assert s == y + r1;
    assert s[..4] == y && s[4..] == r1;
    assert r1[..2] == mo && r1[2..] == r2;
    assert r2[..2] == d && r2[2..] == r3;
    assert r3[..2] == h && r3[2..] == r4;
    assert r4[..2] == mi && r4[2..] == se;
    assert s[4..6] == r1[..2];
    assert s[6..8] == r2[..2];
    assert s[8..10] == r3[..2];
    assert s[10..12] == r4[..2];
    assert s[12..14] == r4[2..];
    ValueOfPadded(t.year, 4);
    ValueOfPadded(t.month, 2);
    ValueOfPadded(t.day, 2);
    ValueOfPadded(t.hour, 2);
    ValueOfPadded(t.minute, 2);
    ValueOfPadded(t.second, 2);
  }

  /** Distinct valid times give distinct timestamps. */
  lemma FormatInjective(t1: DateTime, t2: DateTime)
    requires Valid(t1) && Valid(t2) && Format(t1) == Format(t2)
    ensures t1 == t2
  {
    ParseFormat(t1);
    ParseFormat(t2);
  }
}
