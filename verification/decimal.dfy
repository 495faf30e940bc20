/** How JavaScript renders an integer when it is concatenated to a string
    (`'cid:' + cid`): an optional minus sign followed by decimal digits with no
    leading zero. `Parse` is the inverse used to state that the rendering loses
    nothing. */
module Decimal {
  import opened Wrappers

  predicate IsDigit(c: char) {
    '0' <= c <= '9'
  }

  predicate AllDigits(s: string) {
    forall i :: 0 <= i < |s| ==> IsDigit(s[i])
  }

  function DigitChar(d: nat): (c: char)
    requires d < 10
    ensures IsDigit(c)
    ensures c as int - '0' as int == d
  {
    ('0' as int + d) as char
  }

  /** The decimal digits of a natural number, most significant first. */
  function Digits(n: nat): (s: string)
    ensures 1 <= |s|
    ensures AllDigits(s)
    ensures 1 < |s| ==> s[0] != '0'
    decreases n
  {
    if n < 10 then [DigitChar(n)] else Digits(n / 10) + [DigitChar(n % 10)]
  }

  /** The canonical decimal form: an optional minus sign, then at least one
      digit, with no leading zero unless the digits are just "0". */
  predicate Canonical(s: string) {
    var d := if 1 <= |s| && s[0] == '-' then s[1..] else s;
    1 <= |d| && AllDigits(d) && (1 < |d| ==> d[0] != '0')
  }

  /** The string JavaScript produces for the integer `n`. */
  function Show(n: int): (s: string)
    ensures 1 <= |s|
    ensures n < 0 <==> s[0] == '-'
    ensures Canonical(s)
  {
    if n < 0 then "-" + Digits(-n) else Digits(n)
  }

  /** The value of a string of decimal digits. */
  function DigitsValue(s: string): nat
    requires AllDigits(s)
    decreases |s|
  {
    if s == [] then 0
    else
      DigitsValue(s[..|s| - 1]) * 10 + (s[|s| - 1] as int - '0' as int)
  }

  /** Reads an optionally signed decimal integer; anything else is `None`. */
  function Parse(s: string): Option<int> {
    if 2 <= |s| && s[0] == '-' && AllDigits(s[1..]) then Some(0 - DigitsValue(s[1..]) as int)
    else if 1 <= |s| && AllDigits(s) then Some(DigitsValue(s))
    else None
  }

  lemma {:induction false} DigitsRoundTrip(n: nat)
    ensures DigitsValue(Digits(n)) == n
    decreases n
  {
    if 10 <= n {
      DigitsRoundTrip(n / 10);
      var s := Digits(n);
      assert s[..|s| - 1] == Digits(n / 10);
    }
  }

  /** Rendering an integer and reading it back gives the integer again. */
  lemma ShowRoundTrip(n: int)
    ensures Parse(Show(n)) == Some(n)
  {
    if n < 0 {
      DigitsRoundTrip(-n);
      assert Show(n)[1..] == Digits(-n);
    } else {
      DigitsRoundTrip(n);
    }
  }

  /** Distinct integers render to distinct strings. */
  lemma ShowInjective(a: int, b: int)
    ensures Show(a) == Show(b) ==> a == b
  {
    ShowRoundTrip(a);
    ShowRoundTrip(b);
  }
}
