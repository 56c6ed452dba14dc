/**
 * The few Go library string operations the processor relies on:
 * strings.TrimSuffix, the first element of strings.Split, and fmt's "%d".
 */
module GoStrings {

  predicate HasSuffix(s: string, suffix: string) {
    |suffix| <= |s| && s[|s| - |suffix|..] == suffix
  }

  /** strings.TrimSuffix: removes one trailing copy of `suffix`, if there is one. */
  function TrimSuffix(s: string, suffix: string): (r: string)
    ensures HasSuffix(s, suffix) ==> r + suffix == s
    ensures !HasSuffix(s, suffix) ==> r == s
  {
    if HasSuffix(s, suffix) then s[..|s| - |suffix|] else s
  }

  /** strings.Split(s, [sep])[0]: the text before the first `sep`, or all of `s` when there is none. */
  function FirstField(s: string, sep: char): (r: string)
    ensures r <= s
    ensures sep !in r
    ensures |r| < |s| ==> s[|r|] == sep
  {
    if s == [] || s[0] == sep then [] else [s[0]] + FirstField(s[1..], sep)
  }

  /** The first field of `a + [sep] + b` is `a` whenever `a` holds no separator. */
  lemma {:induction false} FirstFieldOfJoin(a: string, sep: char, b: string)
    requires sep !in a
    ensures FirstField(a + [sep] + b, sep) == a
  {
    if a != [] {
      assert (a + [sep] + b)[1..] == a[1..] + [sep] + b;
      FirstFieldOfJoin(a[1..], sep, b);
    }
  }

  /** A string without separator is its own first field. */
  lemma {:induction false} FirstFieldNoSep(a: string, sep: char)
    requires sep !in a
    ensures FirstField(a, sep) == a
  {
    if a != [] {
      FirstFieldNoSep(a[1..], sep);
    }
  }

  predicate IsDigit(c: char) {
    '0' <= c <= '9'
  }

  function DigitChar(d: nat): (c: char)
    requires d < 10
    ensures IsDigit(c) && c as int - '0' as int == d
  {
    ('0' as int + d) as char
  }

  /** fmt.Sprintf("%d", n) for a non-negative n: decimal digits, no leading zero. */
  function FormatDecimal(n: nat): (r: string)
    ensures |r| >= 1
    ensures forall i :: 0 <= i < |r| ==> IsDigit(r[i])
    ensures r[0] == '0' ==> r == "0"
  {
    if n < 10 then [DigitChar(n)] else FormatDecimal(n / 10) + [DigitChar(n % 10)]
  }

  /** The value a string of decimal digits denotes (the reading direction of FormatDecimal). */
  function DecimalValue(s: string): nat
    requires forall i :: 0 <= i < |s| ==> IsDigit(s[i])
  {
    if s == [] then 0
    else
      assert IsDigit(s[|s| - 1]);
      DecimalValue(s[..|s| - 1]) * 10 + (s[|s| - 1] as int - '0' as int)
  }

  /** Formatting loses nothing: reading the digits back gives the number. */
  lemma {:induction false} DecimalRoundTrip(n: nat)
    ensures DecimalValue(FormatDecimal(n)) == n
  {
    if n >= 10 {
      var r := FormatDecimal(n);
      assert r[..|r| - 1] == FormatDecimal(n / 10);
      DecimalRoundTrip(n / 10);
    }
  }
}
