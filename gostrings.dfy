/**
 * The behaviour of the Go standard-library string helpers the service
 * relies on (strings.TrimRight, strings.TrimSpace, strings.ReplaceAll with an
 * empty replacement, strings.EqualFold, strconv.ParseBool, strconv.ParseInt in
 * base 10) and the UTF-8 byte length that Go's len() reports on a string.
 */
module GoStrings {
  import opened Wrappers

  /** `t` is `s` with its longest suffix made of characters in `cut` removed. */
  predicate RightTrimmedOf(t: string, s: string, cut: set<char>)
  {
    t <= s
    && (forall i :: |t| <= i < |s| ==> s[i] in cut)
    && (t == [] || t[|t| - 1] !in cut)
  }

  /** `t` is `s` with its longest prefix made of characters in `cut` removed. */
  predicate LeftTrimmedOf(t: string, s: string, cut: set<char>)
  {
    |t| <= |s| && t == s[|s| - |t|..]
    && (forall i :: 0 <= i < |s| - |t| ==> s[i] in cut)
    && (t == [] || t[0] !in cut)
  }

  /** strings.TrimRight(s, cutset) */
  function TrimRight(s: string, cut: set<char>): (t: string)
    ensures RightTrimmedOf(t, s, cut)
  {
    if s != [] && s[|s| - 1] in cut then TrimRight(s[..|s| - 1], cut) else s
  }

  /** strings.TrimLeft(s, cutset) */
  function TrimLeft(s: string, cut: set<char>): (t: string)
    ensures LeftTrimmedOf(t, s, cut)
  {
    if s != [] && s[0] in cut then TrimLeft(s[1..], cut) else s
  }

  /** The characters unicode.IsSpace reports as white space. */
  const UnicodeSpace: set<char> :=
    {'\t', '\n', '\U{0B}', '\U{0C}', '\r', ' ', '\U{85}', '\U{A0}', '\U{1680}',
     '\U{2000}', '\U{2001}', '\U{2002}', '\U{2003}', '\U{2004}', '\U{2005}',
     '\U{2006}', '\U{2007}', '\U{2008}', '\U{2009}', '\U{200A}', '\U{2028}',
     '\U{2029}', '\U{202F}', '\U{205F}', '\U{3000}'}

  /** strings.TrimSpace */
  function TrimSpace(s: string): (t: string)
    ensures |t| <= |s|
    ensures t == [] || (t[0] !in UnicodeSpace && t[|t| - 1] !in UnicodeSpace)
  {
    TrimLeft(TrimRight(s, UnicodeSpace), UnicodeSpace)
  }

  /**
   * strings.ReplaceAll(s, pat, ""): occurrences are found left to right and
   * do not overlap; text that forms a new occurrence after a removal is kept.
   */
  function RemoveAll(s: string, pat: string): (r: string)
    requires pat != []
    ensures |r| <= |s|
  {
    if |s| < |pat| then s
    else if s[..|pat|] == pat then RemoveAll(s[|pat|..], pat)
    else [s[0]] + RemoveAll(s[1..], pat)
  }

  /** `pat` starts at no position of `s`. */
  predicate Absent(pat: string, s: string)
  {
    forall i :: 0 <= i <= |s| ==> !(pat <= s[i..])
  }

  lemma {:induction false} RemoveAllAbsent(s: string, pat: string)
    requires pat != [] && Absent(pat, s)
    ensures RemoveAll(s, pat) == s
    decreases |s|
  {
    if |s| >= |pat| {
      assert !(pat <= s[0..]);
      assert Absent(pat, s[1..]) by {
        forall i | 0 <= i <= |s[1..]|
          ensures !(pat <= s[1..][i..])
        {
          assert s[1..][i..] == s[i + 1..];
        }
      }
      RemoveAllAbsent(s[1..], pat);
      assert [s[0]] + s[1..] == s;
    }
  }

  function LowerAscii(c: char): char
  {
    if 'A' <= c <= 'Z' then (c as int + 32) as char else c
  }

  /**
   * strings.EqualFold restricted to ASCII case folding; other characters
   * must match exactly.
   */
  predicate EqualFold(a: string, b: string)
  {
    |a| == |b| && forall i :: 0 <= i < |a| ==> LowerAscii(a[i]) == LowerAscii(b[i])
  }

  /** The text before the first occurrence of `c`, or all of `s`. */
  function Before(s: string, c: char): (r: string)
    ensures r <= s && c !in r
    ensures |r| < |s| ==> s[|r|] == c
  {
    if s == [] || s[0] == c then [] else [s[0]] + Before(s[1..], c)
  }

  /** The text after the first occurrence of `c`, or the empty string. */
  function After(s: string, c: char): (r: string)
    ensures c in s ==> s == Before(s, c) + [c] + r
    ensures c !in s ==> r == []
  {
    if s == [] then [] else if s[0] == c then s[1..] else After(s[1..], c)
  }

  /** strconv.ParseBool */
  function ParseBool(s: string): (r: Option<bool>)
    ensures r == Some(true) <==> s in {"1", "t", "T", "TRUE", "true", "True"}
    ensures r == Some(false) <==> s in {"0", "f", "F", "FALSE", "false", "False"}
  {
    if s in {"1", "t", "T", "TRUE", "true", "True"} then Some(true)
    else if s in {"0", "f", "F", "FALSE", "false", "False"} then Some(false)
    else None
  }

  predicate IsDigit(c: char) { '0' <= c <= '9' }

  predicate AllDigits(s: string) { forall i :: 0 <= i < |s| ==> IsDigit(s[i]) }

  /** The value of a run of decimal digits. */
  function DigitsValue(s: string): (n: nat)
    requires AllDigits(s)
  {
    if s == [] then 0 else DigitsValue(s[..|s| - 1]) * 10 + (s[|s| - 1] as int - '0' as int)
  }

  const MinInt64: int := -0x8000_0000_0000_0000
  const MaxInt64: int := 0x7FFF_FFFF_FFFF_FFFF

  /** strconv.ParseInt(s, 10, 64), which is also what strconv.Atoi accepts. */
  function ParseDecimal(s: string): (r: Option<int>)
    ensures r.Some? ==> MinInt64 <= r.value <= MaxInt64
  {
    var sign := if s != [] && (s[0] == '+' || s[0] == '-') then 1 else 0;
    var digits := s[sign..];
    if digits == [] || !AllDigits(digits) then None
    else
      var v: int := if sign == 1 && s[0] == '-' then 0 - DigitsValue(digits) else DigitsValue(digits);
      if MinInt64 <= v <= MaxInt64 then Some(v) else None
  }

  /** The number of bytes the UTF-8 encoding of `c` takes. */
  function Utf8Width(c: char): (w: nat)
    ensures 1 <= w <= 4
    ensures w == 1 <==> c as int < 0x80
  {
    if c as int < 0x80 then 1 else if c as int < 0x800 then 2 else if c as int < 0x10000 then 3 else 4
  }

  /** Go's len() of a string: its length in UTF-8 bytes. */
  function Utf8Len(s: string): (n: nat)
    ensures |s| <= n <= 4 * |s|
  {
    if s == [] then 0 else Utf8Len(s[..|s| - 1]) + Utf8Width(s[|s| - 1])
  }

  predicate IsAscii(s: string) { forall i :: 0 <= i < |s| ==> s[i] as int < 0x80 }

  lemma {:induction false} Utf8LenAscii(s: string)
    requires IsAscii(s)
    ensures Utf8Len(s) == |s|
  {
    if s != [] { Utf8LenAscii(s[..|s| - 1]); }
  }

  lemma {:induction false} Utf8LenAppend(s: string, t: string)
    ensures Utf8Len(s + t) == Utf8Len(s) + Utf8Len(t)
    decreases |t|
  {
    if t != [] {
      assert (s + t)[..|s + t| - 1] == s + t[..|t| - 1];
      Utf8LenAppend(s, t[..|t| - 1]);
    } else {
      assert s + t == s;
    }
  }
}
