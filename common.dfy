/** Small helpers shared by the models of the settings page and of the
    injected content script: optional values, the string tests JavaScript
    offers as `startsWith`/`endsWith`, and the conversion of an integer to
    its decimal text (`'' + n`). */
module Common {

  datatype Option<T> = None | Some(value: T)

  datatype Result<T> = Ok(value: T) | Err(error: string)

  /** `s.startsWith(prefix)` */
  predicate StartsWith(s: string, prefix: string) {
    |prefix| <= |s| && s[..|prefix|] == prefix
  }

  /** `s.endsWith(suffix)` */
  predicate EndsWith(s: string, suffix: string) {
    |suffix| <= |s| && s[|s| - |suffix|..] == suffix
  }

  /** Ending with a one-character suffix is a test of the last character. */
  lemma EndsWithChar(s: string, c: char)
    ensures EndsWith(s, [c]) <==> |s| > 0 && s[|s| - 1] == c
  {
    if |s| > 0 {
      assert s[|s| - 1..] == [s[|s| - 1]];
    }
  }

  predicate IsDigit(c: char) {
    '0' <= c <= '9'
  }

  predicate AllDigits(s: string) {
    forall i :: 0 <= i < |s| ==> IsDigit(s[i])
  }

  /** The value of a string of decimal digits, read most significant first. */
  function DigitsValue(s: string): nat
    requires AllDigits(s)
    decreases |s|
  {
    if s == [] then 0
    else DigitsValue(s[..|s| - 1]) * 10 + (s[|s| - 1] as int - '0' as int)
  }

  /** Reads back an optionally signed decimal numeral; the reference against
      which number rendering is checked. */
  function ReadDecimal(s: string): Option<int> {
    if |s| > 1 && s[0] == '-' && AllDigits(s[1..]) then Some(0 - DigitsValue(s[1..]) as int)
    else if |s| > 0 && AllDigits(s) then Some(DigitsValue(s))
    else None
  }

  function DigitChar(d: nat): (c: char)
    requires d < 10
    ensures IsDigit(c) && c as int - '0' as int == d
  {
    ('0' as int + d) as char
  }

  /** The decimal text of a natural number, without leading zeros. */
  function NatToString(n: nat): (s: string)
    ensures |s| >= 1 && AllDigits(s)
    ensures DigitsValue(s) == n
    ensures |s| > 1 ==> s[0] != '0'
    ensures s[0] == '0' <==> n == 0
    decreases n
  {
    if n < 10 then [DigitChar(n)]
    else
      var high := NatToString(n / 10);
      var s := high + [DigitChar(n % 10)];
      assert s[..|s| - 1] == high;
      s
  }

  /** The numerals JavaScript writes for an integer: an optional `-` before
      a non-empty run of digits with no leading zero, and no `-0`. */
  predicate CanonicalNumeral(s: string) {
    if |s| > 0 && s[0] == '-' then
      |s| > 1 && AllDigits(s[1..]) && s[1] != '0'
    else
      |s| > 0 && AllDigits(s) && (|s| > 1 ==> s[0] != '0')
  }

  /** JavaScript's `'' + n` for an integer `n`: the canonical numeral that
      reads back as `n`, signed exactly when `n` is negative. */
  function IntToString(n: int): (s: string)
    ensures ReadDecimal(s) == Some(n)
    ensures CanonicalNumeral(s)
    ensures (|s| > 0 && s[0] == '-') <==> n < 0
    ensures |s| > 1 ==> s[0] != '0' && (s[0] == '-' ==> s[1] != '0')
  {
    if n < 0 then
      var s := "-" + NatToString(-n);
      assert s[1..] == NatToString(-n);
      s
    else NatToString(n)
  }

  /** A run of digits that does not start with `0` has a positive value. */
  lemma {:induction false} LeadingDigitPositive(s: string)
    requires |s| >= 1 && AllDigits(s) && s[0] != '0'
    ensures DigitsValue(s) >= 1
    decreases |s|
  {
    if |s| > 1 {
      var p := s[..|s| - 1];
      assert p[0] == s[0];
      LeadingDigitPositive(p);
    }
  }

  /** A run of digits without a leading zero is the text of its own value. */
  lemma {:induction false} DigitsCanonical(s: string)
    requires |s| >= 1 && AllDigits(s) && (|s| > 1 ==> s[0] != '0')
    ensures NatToString(DigitsValue(s)) == s
    decreases |s|
  {
    var v := DigitsValue(s);
    var last := s[|s| - 1];
    if |s| == 1 {
      assert s[..|s| - 1] == [];
      assert DigitsValue(s[..|s| - 1]) == 0;
      assert v == last as int - '0' as int;
      assert [DigitChar(v)] == s;
    } else {
      var p := s[..|s| - 1];
      assert p[0] == s[0];
      LeadingDigitPositive(p);
      DigitsCanonical(p);
      assert v / 10 == DigitsValue(p) && v % 10 == last as int - '0' as int;
      assert DigitChar(v % 10) == last;
      assert s == p + [last];
    }
  }

  /** Each integer has exactly one canonical numeral: the text `'' + n`
      writes is the only one that both is canonical and reads back as `n`. */
  lemma CanonicalNumeralUnique(s: string, n: int)
    requires CanonicalNumeral(s) && ReadDecimal(s) == Some(n)
    ensures s == IntToString(n)
  {
    if s[0] == '-' {
      var digits := s[1..];
      assert digits[0] == s[1];
      LeadingDigitPositive(digits);
      DigitsCanonical(digits);
      assert s == "-" + digits;
    } else {
      DigitsCanonical(s);
    }
  }
}
