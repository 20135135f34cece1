/** Python's `str()` of an `int`: an optional minus sign followed by the
    decimal digits without leading zeros, and its inverse. The exception text
    `TronZap API Error {code}: {message}` renders integer codes this way. */
module Decimal {
  import opened JsonValues

  predicate IsDigit(c: char) {
    '0' <= c <= '9'
  }

  predicate AllDigits(s: string) {
    forall k :: 0 <= k < |s| ==> IsDigit(s[k])
  }

  function DigitChar(d: nat): (c: char)
    requires d < 10
    ensures IsDigit(c) && c as int - '0' as int == d
  {
    ('0' as int + d) as char
  }

  function DigitValue(c: char): (d: nat)
    requires IsDigit(c)
    ensures d < 10 && DigitChar(d) == c
  {
    c as int - '0' as int
  }

  /** A numeral as Python writes one: at least one digit, and no leading
      zero unless the numeral is `0` itself. */
  predicate Canonical(d: string) {
    |d| >= 1 && AllDigits(d) && (d[0] == '0' ==> |d| == 1)
  }

  /** The decimal digits of `n`, most significant first. */
  function NatToDecimal(n: nat): (s: string)
    ensures Canonical(s)
    ensures s[0] == '0' ==> n == 0 && s == "0"
    decreases n
  {
    if n < 10 then [DigitChar(n)] else NatToDecimal(n / 10) + [DigitChar(n % 10)]
  }

  /** `str(i)` for a Python `int`. */
  function IntToDecimal(i: int): (s: string)
    ensures |s| >= 1
    ensures i < 0 <==> s[0] == '-'
    ensures forall k :: 0 <= k < |s| ==> IsDigit(s[k]) || (k == 0 && s[k] == '-')
    ensures s[0] == '0' ==> s == "0"
    ensures s[0] == '-' ==> |s| >= 2 && s[1] != '0'
  {
    if i < 0 then "-" + NatToDecimal(-i) else NatToDecimal(i)
  }

  /** The number a string of digits denotes. */
  function DigitsValue(s: string): (v: nat)
    requires AllDigits(s)
  {
    if s == [] then 0 else DigitsValue(s[..|s| - 1]) * 10 + DigitValue(s[|s| - 1])
  }

  /** Reads back what `IntToDecimal` writes: a canonical numeral, or a
      minus sign followed by a canonical numeral other than `0`. Leading
      zeros and `-0` are refused. */
  function ParseInt(s: string): (r: Option<int>)
    ensures r.Some? ==> |s| >= 1 && (s[0] == '-' <==> r.value < 0)
  {
    if |s| >= 2 && s[0] == '-' && s[1] != '0' && Canonical(s[1..]) then
      DigitsValuePositive(s[1..]);
      Some(-(DigitsValue(s[1..]) as int))
    else if Canonical(s) then Some(DigitsValue(s))
    else None
  }

  /** A numeral whose first digit is not `0` denotes a positive number. */
  lemma {:induction false} DigitsValuePositive(d: string)
    requires |d| >= 1 && AllDigits(d) && d[0] != '0'
    ensures DigitsValue(d) >= 1
    decreases |d|
  {
    if |d| > 1 {
      var front := d[..|d| - 1];
      assert front[0] == d[0];
      DigitsValuePositive(front);
    }
  }

  /** Rendering the number a canonical numeral denotes gives that numeral. */
  lemma {:induction false} DecimalOfDigits(d: string)
    requires Canonical(d)
    ensures NatToDecimal(DigitsValue(d)) == d
    decreases |d|
  {
    var front := d[..|d| - 1];
    var last := DigitValue(d[|d| - 1]);
    if |d| == 1 {
      assert front == [];
    } else {
      assert front[0] == d[0];
      DigitsValuePositive(front);
      DecimalOfDigits(front);
      var n := DigitsValue(d);
      assert n == DigitsValue(front) * 10 + last;
      assert n / 10 == DigitsValue(front) && n % 10 == last;
      assert d == front + [d[|d| - 1]];
    }
  }

  lemma {:induction false} NatToDecimalRoundTrip(n: nat)
    ensures DigitsValue(NatToDecimal(n)) == n
    decreases n
  {
    if n >= 10 {
      var front := NatToDecimal(n / 10);
      var s := front + [DigitChar(n % 10)];
      assert s[..|s| - 1] == front;
      NatToDecimalRoundTrip(n / 10);
    }
  }

  /** Rendering an integer and reading it back gives the same integer, so
      distinct codes render differently. */
  lemma {:induction false} IntToDecimalRoundTrip(i: int)
    ensures ParseInt(IntToDecimal(i)) == Some(i)
  {
    var s := IntToDecimal(i);
    if i < 0 {
      assert s[1..] == NatToDecimal(-i);
      NatToDecimalRoundTrip(-i);
    } else {
      NatToDecimalRoundTrip(i);
    }
  }

  /** `ParseInt` accepts only what `IntToDecimal` writes: a string that reads
      as `i` is exactly `str(i)`, so the rendering of a code is determined by
      its value. */
  lemma ParseIntOnlyCanonical(s: string, i: int)
    requires ParseInt(s) == Some(i)
    ensures s == IntToDecimal(i)
  {
    if s[0] == '-' {
      DecimalOfDigits(s[1..]);
      assert s == "-" + s[1..];
    } else {
      DecimalOfDigits(s);
    }
  }
}
