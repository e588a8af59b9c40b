/** Decimal text of integers: Python's `str(n)`, the `:03d` format, and the
    subset of `int(s)` that accepts an optional sign followed by ASCII digits. */
module Numerals {
  import opened Wrappers

  predicate IsDigit(c: char)
  {
    '0' <= c <= '9'
  }

  predicate AllDigits(s: string)
  {
    forall i :: 0 <= i < |s| ==> IsDigit(s[i])
  }

  function DigitChar(d: nat): char
    requires d < 10
  {
    ['0', '1', '2', '3', '4', '5', '6', '7', '8', '9'][d]
  }

  function DigitVal(c: char): nat
    requires IsDigit(c)
  {
    (c as int - '0' as int) as nat
  }

  lemma DigitRoundTrip(d: nat)
    requires d < 10
    ensures IsDigit(DigitChar(d)) && DigitVal(DigitChar(d)) == d
  {
  }

  /** The value of a string of decimal digits, most significant first. */
  function DigitsValue(s: string): nat
    requires AllDigits(s)
  {
    if s == [] then 0 else DigitsValue(s[..|s| - 1]) * 10 + DigitVal(s[|s| - 1])
  }

  /** Python `str(n)` for a natural number: no leading zeros, "0" for zero. */
  function NatToString(n: nat): (s: string)
    ensures |s| >= 1 && AllDigits(s)
    decreases n
  {
    if n < 10 then [DigitChar(n)] else NatToString(n / 10) + [DigitChar(n % 10)]
  }

  /** `str(n)` has no leading zero and reads back as `n`. */
  lemma {:induction false} NatToStringValue(n: nat)
    ensures var s := NatToString(n); (|s| > 1 ==> s[0] != '0') && DigitsValue(s) == n
    decreases n
  {
    if n >= 10 {
      NatToStringValue(n / 10);
      var init := NatToString(n / 10);
      var s := NatToString(n);
      DigitsSnoc(init, n % 10);
      assert s == init + [DigitChar(n % 10)];
    }
  }

  /** One more digit at the end: ten times the value, plus that digit. */
  lemma DigitsSnoc(init: string, d: nat)
    requires AllDigits(init) && d < 10
    ensures AllDigits(init + [DigitChar(d)])
    ensures DigitsValue(init + [DigitChar(d)]) == DigitsValue(init) * 10 + d
  {
    var s := init + [DigitChar(d)];
    DigitRoundTrip(d);
    assert s[..|s| - 1] == init;
  }

  /** Python `str(x)` for an integer. */
  function IntToString(x: int): (s: string)
    ensures |s| >= 1
    ensures x >= 0 <==> s[0] != '-'
  {
    if x < 0 then "-" + NatToString(-x) else NatToString(x)
  }

  /** Python `int(s)` restricted to an optional sign and one or more ASCII digits;
      `None` stands for the ValueError raised on anything else. */
  function ParseInt(s: string): (r: Option<int>)
    ensures r.Some? ==> |s| >= 1
    ensures r.Some? && AllDigits(s) ==> r.value == DigitsValue(s)
  {
    if |s| >= 2 && (s[0] == '-' || s[0] == '+') && AllDigits(s[1..]) then
      var v: int := DigitsValue(s[1..]);
      Some(if s[0] == '-' then -v else v)
    else if |s| >= 1 && AllDigits(s) then Some(DigitsValue(s))
    else None
  }

  /** The text `str(x)` always parses back to `x`. */
  lemma ParseIntToString(x: int)
    ensures ParseInt(IntToString(x)) == Some(x)
  {
    var s := IntToString(x);
    NatToStringValue(if x < 0 then -x else x);
    if x < 0 {
      assert s[1..] == NatToString(-x);
      assert !AllDigits(s) by { assert !IsDigit(s[0]); }
    } else {
      assert IsDigit(s[0]);
    }
  }

  /** A digit string with a leading zero has the value of the rest. */
  lemma {:induction false} LeadingZero(s: string)
    requires |s| >= 1 && AllDigits(s) && s[0] == '0'
    ensures DigitsValue(s) == DigitsValue(s[1..])
    decreases |s|
  {
    if |s| > 1 {
      var init := s[..|s| - 1];
      LeadingZero(init);
      assert init[1..] == s[1..][..|s[1..]| - 1];
    }
  }

  /** The `f"{n:03d}"` format of a natural number: zero-padded to three digits. */
  function Pad3(n: nat): (s: string)
    ensures |s| >= 3 && AllDigits(s)
    ensures DigitsValue(s) == n
  {
    var d := NatToString(n);
    NatToStringValue(n);
    if n < 10 then
      var s := "00" + d;
      assert s[1..] == "0" + d;
      LeadingZero(s);
      LeadingZero(s[1..]);
      assert s[1..][1..] == d;
      s
    else if n < 100 then
      var s := "0" + d;
      LeadingZero(s);
      assert s[1..] == d;
      s
    else
      assert |d| >= 3 by { LengthBound(d); }
      d
  }

  /** A digit string of length at most two is below 100. */
  lemma {:induction false} LengthBound(s: string)
    requires AllDigits(s) && |s| >= 1 && s[0] != '0'
    ensures |s| <= 2 ==> DigitsValue(s) < 100
    ensures |s| >= 3 || DigitsValue(s) < 100
  {
    if |s| == 2 {
      assert s[..1] == [s[0]];
      assert DigitsValue(s[..1]) == DigitVal(s[0]) by {
        assert s[..1][..0] == [];
      }
    } else if |s| == 1 {
      assert s[..0] == [];
    }
  }

  /** Distinct numbers get distinct padded texts. */
  lemma Pad3Injective(m: nat, n: nat)
    requires Pad3(m) == Pad3(n)
    ensures m == n
  {
  }

  /** Example values used by the id scheme. */
  lemma Pad3Examples()
    ensures Pad3(1) == "001" && Pad3(2) == "002" && Pad3(42) == "042" && Pad3(123) == "123"
  {
    assert NatToString(1) == "1";
    assert NatToString(2) == "2";
    assert NatToString(4) == "4";
    assert NatToString(42) == "42";
    assert NatToString(12) == "12";
    assert NatToString(123) == "123";
  }
}
