/**
 Integer tokens: the `isIntegerString` test (an optional `-` and one or more
 decimal digits), the value `parseInt(token, 10)` gives such a token, and the
 base-10 text `String(n)` gives an integer. Values are unbounded integers.
 */
module Integers {
  import opened Ascii

  function Abs(n: int): (a: nat)
    ensures a == n || a == -n
  {
    if n < 0 then -n else n
  }

  predicate AllDigits(s: string) {
    forall i :: 0 <= i < |s| ==> IsDigit(s[i])
  }

  function DigitValue(c: char): (d: nat)
    requires IsDigit(c)
    ensures d < 10
  {
    c as int - '0' as int
  }

  function DigitChar(d: nat): (c: char)
    requires d < 10
    ensures IsDigit(c) && DigitValue(c) == d
  {
    ('0' as int + d) as char
  }

  /** The value of a digit string read in base 10 (leading zeros allowed). */
  function DigitsValue(s: string): (n: nat)
    requires AllDigits(s)
    ensures |s| > 0 ==> n % 2 == DigitValue(s[|s| - 1]) % 2
  {
    if s == [] then 0 else DigitsValue(s[..|s| - 1]) * 10 + DigitValue(s[|s| - 1])
  }

  /** The part of an integer token after its optional minus sign. */
  function Magnitude(s: string): string {
    if |s| > 0 && s[0] == '-' then s[1..] else s
  }

  /** `isIntegerString`: the whole string matches an optional `-` followed by one or more digits. */
  predicate IsIntegerString(s: string) {
    |Magnitude(s)| > 0 && AllDigits(Magnitude(s))
  }

  /**
   The same test stated as the regular expression reads: `s` is a sign part
   that is empty or "-", followed by a nonempty run of digits.
   */
  lemma {:induction false} IsIntegerStringMatchesPattern(s: string)
    ensures IsIntegerString(s) <==>
      exists sign: string, digits: string ::
        (sign == "" || sign == "-") && |digits| > 0 && AllDigits(digits) && s == sign + digits
  {
    if IsIntegerString(s) {
      var sign := if s[0] == '-' then "-" else "";
      assert s == sign + Magnitude(s);
    }
    forall sign: string, digits: string |
      (sign == "" || sign == "-") && |digits| > 0 && AllDigits(digits)
      ensures IsIntegerString(sign + digits)
    {
      if sign == "-" {
        assert Magnitude(sign + digits) == digits;
      } else {
        assert sign + digits == digits;
        assert digits[0] != '-';
      }
    }
  }

  /** `parseInt(s, 10)` on an integer token: the sign applied to the digits' value. */
  function ParseInt(s: string): (n: int)
    requires IsIntegerString(s)
    ensures s[0] == '-' ==> n <= 0
    ensures s[0] != '-' ==> n >= 0
    ensures Abs(n) == DigitsValue(Magnitude(s))
    ensures Abs(n) % 2 == DigitValue(s[|s| - 1]) % 2
  {
    var m := Magnitude(s);
    assert s[|s| - 1] == m[|m| - 1];
    var v: int := DigitsValue(m);
    if s[0] == '-' then -v else v
  }

  /** `String(n)` for a natural number: its shortest base-10 digit string. */
  function RenderNat(n: nat): (s: string)
    ensures |s| > 0 && AllDigits(s)
    ensures DigitsValue(s) == n
    ensures s[0] == '0' ==> s == "0"
  {
    if n < 10 then [DigitChar(n)]
    else
      var prefix := RenderNat(n / 10);
      var s := prefix + [DigitChar(n % 10)];
      assert s[..|s| - 1] == prefix;
      s
  }

  /**
   `String(n)` for an integer: a minus sign for negatives, then the magnitude's
   digits with no leading zero (so never "-0" and never "00").
   */
  function RenderInt(n: int): (s: string)
    ensures IsIntegerString(s)
    ensures ParseInt(s) == n
    ensures s[0] == '-' <==> n < 0
    ensures |Magnitude(s)| > 1 ==> Magnitude(s)[0] != '0'
  {
    if n < 0 then
      var digits := RenderNat(-n);
      assert Magnitude("-" + digits) == digits;
      "-" + digits
    else RenderNat(n)
  }
}
