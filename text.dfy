/**
  Decimal text for years: Python's `str(int)` for non-negative integers and
  `int(str)` restricted to plain ASCII digit strings, plus the `"Y1-Y2"` split.
*/
module Text {
  import opened Wrappers

  predicate IsDigit(c: char) {
    '0' <= c <= '9'
  }

  predicate AllDigits(s: string) {
    forall i :: 0 <= i < |s| ==> IsDigit(s[i])
  }

  function DigitChar(d: nat): (c: char)
    requires d < 10
    ensures IsDigit(c) && c as int - '0' as int == d
  {
    (d + '0' as int) as char
  }

  /** `str(n)` for a non-negative integer. */
  function NatToString(n: nat): (s: string)
    ensures |s| > 0 && AllDigits(s)
  {
    if n < 10 then [DigitChar(n)] else NatToString(n / 10) + [DigitChar(n % 10)]
  }

  /** The number a string of ASCII digits denotes (leading zeros allowed). */
  function DigitsValue(s: string): nat
    requires AllDigits(s)
  {
    if s == [] then 0
    else DigitsValue(s[..|s| - 1]) * 10 + (s[|s| - 1] as int - '0' as int)
  }

  /** `int(s)`: defined on non-empty digit strings, a ValueError otherwise. */
  function ParseNat(s: string): Option<nat> {
    if |s| > 0 && AllDigits(s) then Some(DigitsValue(s)) else None
  }

  /** `str` and `int` are inverse on non-negative integers. */
  lemma {:induction false} ParseNatOfString(n: nat)
    ensures ParseNat(NatToString(n)) == Some(n)
  {
    var s := NatToString(n);
    if n < 10 {
      assert s[..|s| - 1] == [];
    } else {
      ParseNatOfString(n / 10);
      assert s[..|s| - 1] == NatToString(n / 10);
      assert DigitsValue(s) == (n / 10) * 10 + n % 10;
    }
  }

  lemma NatToStringInjective(a: nat, b: nat)
    requires NatToString(a) == NatToString(b)
    ensures a == b
  {
    ParseNatOfString(a);
    ParseNatOfString(b);
  }

  /** A digit string is canonical when it is what `str` prints for its value. */
  predicate Canonical(s: string) {
    ParseNat(s).Some? && NatToString(ParseNat(s).value) == s
  }

  lemma NatToStringCanonical(n: nat)
    ensures Canonical(NatToString(n))
  {
    ParseNatOfString(n);
  }

  /** Position of the first occurrence of `c` in `s`, or `|s|` when there is none. */
  function FirstIndex(s: string, c: char): (i: nat)
    ensures i <= |s|
    ensures i < |s| ==> s[i] == c
    ensures forall j :: 0 <= j < i ==> s[j] != c
  {
    if s == [] then 0
    else if s[0] == c then 0
    else 1 + FirstIndex(s[1..], c)
  }

  /**
    `y1, y2 = map(int, s.split("-"))`: succeeds only when there is exactly one
    dash and both sides are digit strings; every other shape is a ValueError.
  */
  function ParseRange(s: string): Option<(nat, nat)> {
    var i := FirstIndex(s, '-');
    if i == |s| then None
    else
      var left, right := s[..i], s[i + 1..];
      if '-' in right then None
      else
        match (ParseNat(left), ParseNat(right))
        case (Some(y1), Some(y2)) => Some((y1, y2))
        case _ => None
  }

  /** The range text a caller writes for two years is read back as those years. */
  lemma RangeRoundTrip(y1: nat, y2: nat)
    ensures ParseRange(NatToString(y1) + "-" + NatToString(y2)) == Some((y1, y2))
  {
    var a, b := NatToString(y1), NatToString(y2);
    var s := a + "-" + b;
    assert forall j :: 0 <= j < |a| ==> s[j] == a[j] && s[j] != '-';
    assert s[|a|] == '-';
    assert FirstIndex(s, '-') == |a|;
    assert s[..|a|] == a;
    assert s[|a| + 1..] == b;
    assert '-' !in b by {
      forall j | 0 <= j < |b| ensures b[j] != '-' { assert IsDigit(b[j]); }
    }
    ParseNatOfString(y1);
    ParseNatOfString(y2);
  }
}
