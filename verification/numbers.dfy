/** Python's `int(...)` on an answer string and `str(...)` on an integer
    answer, as the follow-up evaluator uses them (rules.py:317-321, 334).
    `int` is modelled on a simplified grammar: optional surrounding
    whitespace, an optional sign, and one or more ASCII digits. */
module Numbers {
  import opened Options
  import opened Chars
  import opened Normalize

  predicate AllDigits(s: string)
  {
    forall i | 0 <= i < |s| :: IsDigit(s[i])
  }

  function DigitValue(c: char): (r: nat)
    requires IsDigit(c)
  {
    c as int - '0' as int
  }

  function DigitChar(d: nat): (c: char)
    requires d < 10
    ensures IsDigit(c) && DigitValue(c) == d
  {
    ('0' as int + d) as char
  }

  /** The value of a decimal digit string, most significant digit first. */
  function DigitsValue(s: string): (r: nat)
    requires AllDigits(s)
    decreases |s|
  {
    if s == [] then 0 else DigitsValue(s[..|s| - 1]) * 10 + DigitValue(s[|s| - 1])
  }

  /** `int(s)` for a string, `None` where Python raises `ValueError`. */
  function ParseInt(s: string): (r: Option<int>)
  {
    var t := Strip(s);
    if |t| > 0 && (t[0] == '+' || t[0] == '-') then
      var digits := t[1..];
      if |digits| > 0 && AllDigits(digits) then
        var magnitude: int := DigitsValue(digits);
        Some(if t[0] == '-' then -magnitude else magnitude)
      else None
    else if |t| > 0 && AllDigits(t) then Some(DigitsValue(t))
    else None
  }

  /** `str(n)` for a natural number: its decimal digits, no leading zero. */
  function NatToDecimal(n: nat): (s: string)
    ensures |s| > 0 && AllDigits(s)
  {
    if n < 10 then [DigitChar(n)] else NatToDecimal(n / 10) + [DigitChar(n % 10)]
  }

  /** `str(n)` for an integer. */
  function IntToDecimal(n: int): (r: string)
  {
    if n < 0 then "-" + NatToDecimal(-n) else NatToDecimal(n)
  }

  lemma {:induction false} NatToDecimalValue(n: nat)
    ensures DigitsValue(NatToDecimal(n)) == n
  {
    if n >= 10 {
      var s := NatToDecimal(n);
      NatToDecimalValue(n / 10);
      assert s[..|s| - 1] == NatToDecimal(n / 10);
    }
  }

  /** Reading back a printed integer gives the integer: `int(str(n)) == n`. */
  lemma ParseIntRoundTrip(n: int)
    ensures ParseInt(IntToDecimal(n)) == Some(n)
  {
    var s := IntToDecimal(n);
    var m := if n < 0 then -n else n;
    NatToDecimalValue(m);
    var d := NatToDecimal(m);
    assert |s| > 0 && !IsSpace(s[0]) && !IsSpace(s[|s| - 1]);
    assert Strip(s) == s;
    if n < 0 {
      assert s[1..] == d;
    }
  }

  /** A printed integer has no letter in it. */
  lemma IntToDecimalHasNoLetter(n: int)
    ensures forall i | 0 <= i < |IntToDecimal(n)| :: !IsLowerLetter(IntToDecimal(n)[i]) && !IsUpper(IntToDecimal(n)[i])
  {
  }

  lemma DropLeadingKeeps(s: string, i: nat)
    requires i < |s| && !IsSpace(s[i])
    ensures |s| - |DropLeadingSpace(s)| <= i
  {
  }

  lemma DropTrailingKeeps(s: string, i: nat)
    requires i < |s| && !IsSpace(s[i])
    ensures i < |DropTrailingSpace(s)|
  {
  }

  /** Stripping keeps every non-whitespace character. */
  lemma StripKeeps(s: string, i: nat) returns (p: nat)
    requires i < |s| && !IsSpace(s[i])
    ensures p < |Strip(s)| && Strip(s)[p] == s[i]
  {
    var a := DropLeadingSpace(s);
    var start := |s| - |a|;
    DropLeadingKeeps(s, i);
    p := i - start;
    assert a[p] == s[i];
    DropTrailingKeeps(a, p);
    assert DropTrailingSpace(a)[p] == a[p];
  }

  /** A text with a letter in it is not a number. */
  lemma ParseIntRejectsLetters(s: string, i: nat)
    requires i < |s| && (IsLowerLetter(s[i]) || IsUpper(s[i]))
    ensures ParseInt(s).None?
  {
    var p := StripKeeps(s, i);
    var t := Strip(s);
    if |t| > 0 && (t[0] == '+' || t[0] == '-') {
      assert p > 0 && t[1..][p - 1] == t[p];
    }
  }
}
