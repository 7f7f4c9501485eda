/** Python's `str()` on an `int`, which `print_coordinates` applies to every
    coordinate: an optional `-` followed by the decimal digits, with no leading
    zero except for zero itself. */
module PyInt {

  predicate IsDigit(c: char) {
    '0' <= c <= '9'
  }

  predicate AllDigits(s: string) {
    forall i :: 0 <= i < |s| ==> IsDigit(s[i])
  }

  function DigitChar(d: int): (c: char)
    requires 0 <= d < 10
    ensures IsDigit(c)
  {
    ('0' as int + d) as char
  }

  function DigitValue(c: char): (d: int)
    requires IsDigit(c)
    ensures 0 <= d < 10
  {
    c as int - '0' as int
  }

  /** The text Python prints for a natural number: digits only, with no
      leading zero unless the number is zero itself. */
  predicate IsNatText(s: string) {
    |s| >= 1 && AllDigits(s) && (s[0] == '0' ==> |s| == 1)
  }

  /** The text Python prints for an integer: the natural-number text, preceded
      by `-` for a negative value (so never `-0`). */
  predicate IsCanonical(s: string) {
    if |s| >= 1 && s[0] == '-' then IsNatText(s[1..]) && s[1] != '0' else IsNatText(s)
  }

  /** The decimal digits of `n`, most significant first. */
  function NatToString(n: nat): (s: string)
    ensures IsNatText(s)
    ensures s[0] == '0' <==> n == 0
  {
    if n < 10 then [DigitChar(n)] else NatToString(n / 10) + [DigitChar(n % 10)]
  }

  /** `str(n)` for an integer `n`. */
  function Str(n: int): (s: string)
    ensures IsCanonical(s)
    ensures s[0] == '-' <==> n < 0
  {
    if n < 0 then
      var s := "-" + NatToString(-n);
      assert s[1..] == NatToString(-n);
      s
    else NatToString(n)
  }

  /** The value of a string of decimal digits. */
  function ParseNat(s: string): nat
    requires AllDigits(s)
  {
    if |s| == 0 then 0 else ParseNat(s[..|s| - 1]) * 10 + DigitValue(s[|s| - 1])
  }

  /** Python's `int()` on the text `str()` prints. */
  function Parse(s: string): int
    requires IsCanonical(s)
  {
    if s[0] == '-' then -(ParseNat(s[1..]) as int) else ParseNat(s)
  }

  lemma {:induction false} ParseNatToString(n: nat)
    ensures ParseNat(NatToString(n)) == n
    decreases n
  {
    if n >= 10 {
      var s := NatToString(n);
      assert s[..|s| - 1] == NatToString(n / 10);
      ParseNatToString(n / 10);
    }
  }

  /** `int(str(n)) == n`: the printed form of an integer determines it. */
  lemma ParseStr(n: int)
    ensures Parse(Str(n)) == n
  {
    if n < 0 {
      assert Str(n)[1..] == NatToString(-n);
      ParseNatToString(-n);
    } else {
      ParseNatToString(n);
    }
  }

  lemma StrInjective(m: int, n: int)
    ensures Str(m) == Str(n) <==> m == n
  {
    ParseStr(m);
    ParseStr(n);
  }

  /** A digit string is worth at least its leading digit. */
  lemma {:induction false} ParseNatAtLeastLeadingDigit(s: string)
    requires |s| >= 1 && AllDigits(s)
    ensures ParseNat(s) >= DigitValue(s[0])
    decreases |s|
  {
    if |s| > 1 {
      var init := s[..|s| - 1];
      assert init[0] == s[0];
      ParseNatAtLeastLeadingDigit(init);
    }
  }

  lemma {:induction false} NatToStringParseNat(s: string)
    requires IsNatText(s)
    ensures NatToString(ParseNat(s)) == s
    decreases |s|
  {
    var last := s[|s| - 1];
    assert DigitChar(DigitValue(last)) == last;
    if |s| > 1 {
      var init := s[..|s| - 1];
      assert init[0] == s[0] != '0';
      ParseNatAtLeastLeadingDigit(init);
      NatToStringParseNat(init);
      var n := ParseNat(s);
      assert n / 10 == ParseNat(init) && n % 10 == DigitValue(last);
      assert s == init + [last];
    }
  }

  /** `str(int(s)) == s` on every canonical text: exactly these are printed. */
  lemma StrParse(s: string)
    requires IsCanonical(s)
    ensures Str(Parse(s)) == s
  {
    if s[0] == '-' {
      var digits := s[1..];
      NatToStringParseNat(digits);
      ParseNatAtLeastLeadingDigit(digits);
      assert s == "-" + digits;
    } else {
      NatToStringParseNat(s);
    }
  }
}
