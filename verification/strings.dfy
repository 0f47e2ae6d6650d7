/** The string operations the dashboard applies to user input and currency
    codes: `trim()`, `toUpperCase()`, `slice(-n)` and `charAt(0)`. */
module Strings {

  /** The white space and line terminators that `String.prototype.trim`
      strips (the common ones; see README for the rest). */
  predicate IsSpace(c: char) {
    c == ' ' || c == '\t' || c == '\n' || c == '\r' || c == '\U{000B}' || c == '\U{000C}'
    || c == '\U{00A0}' || c == '\U{FEFF}' || c == '\U{2028}' || c == '\U{2029}'
  }

  predicate AllSpace(s: string) {
    forall i :: 0 <= i < |s| ==> IsSpace(s[i])
  }

  /** `trimStart()`: drops the leading white space and nothing else. */
  function TrimStart(s: string): (r: string)
    ensures |r| <= |s| && r == s[|s| - |r|..]
    ensures AllSpace(s[..|s| - |r|])
    ensures |r| > 0 ==> !IsSpace(r[0])
  {
    if |s| > 0 && IsSpace(s[0]) then TrimStart(s[1..]) else s
  }

  /** `trimEnd()`: drops the trailing white space and nothing else. */
  function TrimEnd(s: string): (r: string)
    ensures |r| <= |s| && r == s[..|r|]
    ensures AllSpace(s[|r|..])
    ensures |r| > 0 ==> !IsSpace(r[|r| - 1])
  {
    if |s| > 0 && IsSpace(s[|s| - 1]) then TrimEnd(s[..|s| - 1]) else s
  }

  /** `r` sits at offset `i` of `s` with only white space around it. */
  predicate PaddedAt(s: string, r: string, i: int) {
    0 <= i <= |s| - |r| && r == s[i..i + |r|] && AllSpace(s[..i]) && AllSpace(s[i + |r|..])
  }

  /** `trim()`: the result is an infix of the input with no white space at
      either end; it is empty exactly when the input is all white space. */
  function Trim(s: string): (r: string)
    ensures |r| <= |s|
    ensures |r| > 0 ==> !IsSpace(r[0]) && !IsSpace(r[|r| - 1])
    ensures r == "" <==> AllSpace(s)
    ensures (|s| == 0 || (!IsSpace(s[0]) && !IsSpace(s[|s| - 1]))) ==> r == s
    ensures exists i :: PaddedAt(s, r, i)
  {
    TrimFacts(s);
    TrimIsInfix(s);
    TrimEnd(TrimStart(s))
  }

  /** The trimmed string sits after the leading white space, with only
      white space after it. */
  lemma {:induction false} TrimIsInfix(s: string)
    ensures exists i :: PaddedAt(s, TrimEnd(TrimStart(s)), i)
  {
    var t := TrimStart(s);
    var i := |s| - |t|;
    var r := TrimEnd(t);
    assert AllSpace(s[..i]);
    TrimEndWithin(s, t, i);
    assert r == s[i..i + |r|] && AllSpace(s[i + |r|..]);
    assert PaddedAt(s, r, i);
  }

  lemma {:induction false} TrimFacts(s: string)
    ensures TrimEnd(TrimStart(s)) == "" <==> AllSpace(s)
  {
    var t := TrimStart(s);
    assert s == s[..|s| - |t|] + t;
    if |t| > 0 {
      assert !IsSpace(s[|s| - |t|]);
    }
  }

  /** Trimming the end of the suffix `t` of `s` leaves an infix of `s`
      followed only by white space. */
  lemma {:induction false} TrimEndWithin(s: string, t: string, i: int)
    requires 0 <= i <= |s| && t == s[i..]
    ensures TrimEnd(t) == s[i..i + |TrimEnd(t)|]
    ensures AllSpace(s[i + |TrimEnd(t)|..])
  {
    var r := TrimEnd(t);
    assert s[i + |r|..] == t[|r|..];
  }

  /** The upper-case form of one character (ASCII letters only). */
  function UpperChar(c: char): char {
    if 'a' <= c <= 'z' then (c as int - 32) as char else c
  }

  /** `toUpperCase()`, character by character. */
  function Upper(s: string): (r: string)
    ensures |r| == |s|
    ensures forall i :: 0 <= i < |s| ==> r[i] == UpperChar(s[i])
  {
    seq(|s|, i requires 0 <= i < |s| => UpperChar(s[i]))
  }

  /** Upper-casing is idempotent, so a key that was upper-cased once is
      found again by an upper-cased lookup. */
  lemma UpperIdempotent(s: string)
    ensures Upper(Upper(s)) == Upper(s)
  {
  }

  /** Upper-casing distributes over concatenation. */
  lemma UpperConcat(a: string, b: string)
    ensures Upper(a + b) == Upper(a) + Upper(b)
  {
  }

  /** `s.slice(-n)` for n > 0: the last `n` characters, or all of `s` when
      it is shorter. */
  function LastChars(s: string, n: nat): (r: string)
    requires n > 0
    ensures |r| == if |s| < n then |s| else n
    ensures s == s[..|s| - |r|] + r
  {
    if |s| < n then s else s[|s| - n..]
  }

  /** `s.charAt(0).toUpperCase()`: the upper-cased first character, or the
      empty string for an empty `s`. */
  function Initial(s: string): (r: string)
    ensures |s| == 0 ==> r == ""
    ensures |s| > 0 ==> r == [UpperChar(s[0])]
  {
    Upper(s[..if |s| == 0 then 0 else 1])
  }

  /** The decimal digit `d`. */
  function DigitChar(d: int): (c: char)
    requires 0 <= d < 10
    ensures '0' <= c <= '9'
  {
    ('0' as int + d) as char
  }

  /** The number a string of decimal digits denotes, most significant
      digit first. */
  function DigitsValue(s: string): int
  {
    if |s| == 0 then 0 else DigitsValue(s[..|s| - 1]) * 10 + (s[|s| - 1] as int - '0' as int)
  }

  /** `String(n)` for a non-negative integer: its decimal digits, without
      leading zeros. */
  function NatToString(n: nat): (r: string)
    ensures |r| > 0 && forall i :: 0 <= i < |r| ==> '0' <= r[i] <= '9'
    ensures |r| > 1 ==> r[0] != '0'
    ensures DigitsValue(r) == n
    decreases n
  {
    if n < 10 then [DigitChar(n)]
    else
      var r := NatToString(n / 10) + [DigitChar(n % 10)];
      assert r[..|r| - 1] == NatToString(n / 10);
      r
  }

  /** `String(n)` for an integer: a minus sign exactly for a negative `n`,
      followed by the decimal digits of its magnitude. */
  function IntToString(n: int): (r: string)
    ensures |r| > 0
    ensures r[0] == '-' <==> n < 0
    ensures var k := if n < 0 then 1 else 0;
      && k < |r| && (forall i :: k <= i < |r| ==> '0' <= r[i] <= '9')
      && (|r| > k + 1 ==> r[k] != '0')
      && DigitsValue(r[k..]) == if n < 0 then -n else n
  {
    if n < 0 then "-" + NatToString(-n) else NatToString(n)
  }
}
