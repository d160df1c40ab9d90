/** Decimal rendering of integers (string concatenation and template literals)
    and Java `Long.parseLong`, restricted to ASCII digits. */
module Numbers {
  import opened Wrappers

  /** Bounds of a Java `long`. */
  const LongMin: int := -0x8000_0000_0000_0000
  const LongMax: int := 0x7FFF_FFFF_FFFF_FFFF

  predicate IsDigit(c: char) {
    '0' <= c <= '9'
  }

  predicate AllDigits(s: string) {
    forall i | 0 <= i < |s| :: IsDigit(s[i])
  }

  function DigitValue(c: char): (d: nat)
    requires IsDigit(c)
    ensures d < 10
  {
    c as int - '0' as int
  }

  function DigitChar(d: nat): (c: char)
    requires d < 10
    ensures IsDigit(c) && DigitValue(c) == d
  {
    ('0' as int + d) as char
  }

  /** The value of a string of decimal digits, most significant first. */
  function DigitsValue(s: string): (v: nat)
    requires AllDigits(s)
  {
    if |s| == 0 then 0 else DigitsValue(s[..|s| - 1]) * 10 + DigitValue(s[|s| - 1])
  }

  /** The decimal representation of a natural number, without leading zeros. */
  function ShowNat(n: nat): (s: string)
    ensures |s| >= 1 && AllDigits(s)
  {
    if n < 10 then [DigitChar(n)] else ShowNat(n / 10) + [DigitChar(n % 10)]
  }

  /** The decimal representation of an integer, with a leading '-' when negative. */
  function ShowInt(n: int): (s: string)
    ensures |s| >= 1
    ensures n < 0 <==> s[0] == '-'
  {
    if n < 0 then "-" + ShowNat(-n) else ShowNat(n)
  }

  /** Reading back a rendered natural number gives that number. */
  lemma {:induction false} DigitsValueShowNat(n: nat)
    ensures DigitsValue(ShowNat(n)) == n
  {
    if n >= 10 {
      DigitsValueShowNat(n / 10);
      var s := ShowNat(n);
      assert s[..|s| - 1] == ShowNat(n / 10);
    }
  }

  /** Java `Long.parseLong(s)`: an optional sign followed by at least one digit,
      whose value fits in a `long`; anything else throws NumberFormatException,
      modelled as None. Digits are the ASCII ones only. */
  function ParseLong(s: string): (r: Option<int>)
    ensures r.Some? ==> LongMin <= r.value <= LongMax
    ensures |s| == 0 ==> r.None?
  {
    if |s| == 0 then None
    else
      var negative := s[0] == '-';
      var digits := if s[0] == '-' || s[0] == '+' then s[1..] else s;
      if |digits| == 0 || !AllDigits(digits) then None
      else
        var v: int := if negative then -(DigitsValue(digits) as int) else DigitsValue(digits);
        if LongMin <= v <= LongMax then Some(v) else None
  }

  /** A string holding a character that is neither a digit nor a leading sign does not parse. */
  lemma ParseLongRejectsNonDigit(s: string, i: int)
    requires 0 <= i < |s| && !IsDigit(s[i])
    requires i > 0 || (s[0] != '-' && s[0] != '+')
    ensures ParseLong(s).None?
  {
    if s[0] == '-' || s[0] == '+' {
      assert s[1..][i - 1] == s[i];
    }
  }

  /** Parsing the rendering of any natural number in range gives it back. */
  lemma ParseLongShowNat(n: nat)
    requires n <= LongMax
    ensures ParseLong(ShowNat(n)) == Some(n)
  {
    DigitsValueShowNat(n);
  }

  /** Parsing a minus sign followed by the rendering of a natural number in range
      gives its negation; this reaches `LongMin`. */
  lemma ParseLongNegative(n: nat)
    requires n <= -LongMin
    ensures ParseLong("-" + ShowNat(n)) == Some(-(n as int))
  {
    DigitsValueShowNat(n);
    assert ("-" + ShowNat(n))[1..] == ShowNat(n);
  }

  /** One past the largest `long` does not parse. */
  lemma ParseLongOverflow()
    ensures ParseLong(ShowNat(LongMax + 1)).None?
  {
    DigitsValueShowNat(LongMax + 1);
  }
}
