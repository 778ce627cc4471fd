/**
 * The small helpers of the utils package: bounded random integers, password
 * hashing against an abstract bcrypt, minute durations from configuration
 * text, masking of contact details, a by-rune search and nullable strings.
 */
module Funcs {
  import opened Wrappers
  import opened GoStrings

  /**
   * RandomInt(min, max): `draw` is what rand.Intn(max - min + 1) returned,
   * which Go requires to have a positive bound.
   */
  function RandomInt(min: int, max: int, draw: nat): (r: int)
    requires min <= max && draw <= max - min
    ensures min <= r <= max
  {
    draw + min
  }

  /** Every value of [min, max] is produced by some draw. */
  lemma RandomIntCovers(min: int, max: int, v: int)
    requires min <= v <= max
    ensures exists draw: nat :: draw <= max - min && RandomInt(min, max, draw) == v
  {
    assert RandomInt(min, max, v - min) == v;
  }

  /**
   * The abstract bcrypt digest of `input`: a marker, one character of the
   * per-hash random salt `nonce`, then material only a matching input
   * reproduces.
   */
  function Digest(input: string, nonce: char): string
  {
    "$2a$" + [nonce] + input
  }

  /** bcrypt.CompareHashAndPassword succeeding. */
  predicate DigestMatches(hash: string, input: string)
  {
    |hash| >= 5 && hash[..4] == "$2a$" && hash[5..] == input
  }

  /** HashPassword: the empty password stays empty; any other is hashed with the pepper appended. */
  function HashPassword(password: string, pepper: string, nonce: char): (h: string)
    ensures h == "" <==> password == ""
  {
    if password == "" then "" else Digest(password + pepper, nonce)
  }

  /**
   * VerifyPassword: an empty candidate never verifies, and a hash verifies
   * only candidates of its own length.
   */
  function VerifyPassword(stored: string, given: string, pepper: string): (ok: bool)
    ensures ok ==> given != "" && |stored| == 5 + |given| + |pepper|
  {
    given != "" && DigestMatches(stored, given + pepper)
  }

  /** A stored hash verifies exactly the password it was made from. */
  lemma {:induction false} HashVerifies(password: string, given: string, pepper: string, nonce: char)
    requires password != ""
    ensures VerifyPassword(HashPassword(password, pepper, nonce), given, pepper) <==> given == password
  {
    var h := HashPassword(password, pepper, nonce);
    assert h[..4] == "$2a$" && h[5..] == password + pepper;
    if VerifyPassword(h, given, pepper) {
      assert given + pepper == password + pepper;
      assert given == (given + pepper)[..|given|];
    }
  }

  /** An account without a password (stored as "") cannot sign in with one. */
  lemma EmptyHashNeverVerifies(given: string, pepper: string)
    ensures !VerifyPassword(HashPassword("", pepper, ' '), given, pepper)
  {
  }

  /** time.Minute: a time.Duration counts nanoseconds. */
  const MinuteNanos: int := 60_000_000_000

  /** The int64 a wrapping multiplication leaves: `x` modulo 2^64, read back as signed. */
  function WrapInt64(x: int): (r: int)
    ensures MinInt64 <= r <= MaxInt64
    ensures MinInt64 <= x <= MaxInt64 ==> r == x
    ensures x > MaxInt64 && x - 0x1_0000_0000_0000_0000 <= MaxInt64 ==> r == x - 0x1_0000_0000_0000_0000
  {
    (x - MinInt64) % 0x1_0000_0000_0000_0000 + MinInt64
  }

  /** GetenvAsMinuteDuration: a time.Duration in nanoseconds, or the default together with an error text. */
  datatype EnvDuration = EnvDuration(nanos: int, err: Option<string>)

  /**
   * The value is read with strconv.Atoi, so it is a base-10 int64; the
   * product time.Duration(minutes) * time.Minute is int64 arithmetic and wraps.
   */
  function GetenvAsMinuteDuration(key: string, val: string, defaultNanos: int, required: bool): (r: EnvDuration)
    ensures val == "" && required ==> r == EnvDuration(defaultNanos, Some("environment variable " + key + " is required"))
    ensures val == "" && !required ==> r == EnvDuration(defaultNanos, None)
    ensures val != "" && ParseDecimal(val).None? ==>
      r == EnvDuration(defaultNanos, Some("environment variable " + key + " must be an integer"))
    ensures val != "" && ParseDecimal(val).Some? ==>
      r.err.None? && MinInt64 <= r.nanos <= MaxInt64 && r.nanos == WrapInt64(ParseDecimal(val).value * MinuteNanos)
  {
    if val == "" && required then EnvDuration(defaultNanos, Some("environment variable " + key + " is required"))
    else if val == "" then EnvDuration(defaultNanos, None)
    else match ParseDecimal(val)
      case None => EnvDuration(defaultNanos, Some("environment variable " + key + " must be an integer"))
      case Some(n) => EnvDuration(WrapInt64(n * MinuteNanos), None)
  }

  /** Up to 153722867 minutes either way the duration is exact. */
  lemma MinuteDurationExact(key: string, val: string, defaultNanos: int, required: bool, m: int)
    requires val != "" && ParseDecimal(val) == Some(m) && -153722867 <= m <= 153722867
    ensures GetenvAsMinuteDuration(key, val, defaultNanos, required) == EnvDuration(m * MinuteNanos, None)
  {
    assert -153722867 * MinuteNanos <= m * MinuteNanos <= 153722867 * MinuteNanos;
  }

  /** One minute more and the product overflows: the configured lifetime comes out negative. */
  lemma MinuteDurationWraps(key: string, val: string, defaultNanos: int, required: bool)
    requires val != "" && ParseDecimal(val) == Some(153722868)
    ensures GetenvAsMinuteDuration(key, val, defaultNanos, required).nanos < 0
  {
    assert 153722868 * MinuteNanos - 0x1_0000_0000_0000_0000 < 0;
  }

  /**
   * MaskEmail; None is the slice panic for text without '@' or with an empty
   * part before it. The part after the first '@' runs to the next '@'.
   */
  function MaskEmail(email: string): (r: Option<string>)
    ensures email == "" ==> r == Some("")
    ensures r.None? <==> email != "" && ('@' !in email || email[0] == '@')
  {
    if email == "" then Some("")
    else
      var local := Before(email, '@');
      if '@' !in email || local == "" then None
      else
        var domain := Before(After(email, '@'), '@');
        Some(local[..if |local| < 2 then 1 else 2] + "...@" + domain)
  }

  /** For local@domain with one '@', the mask keeps up to two leading characters and the domain. */
  lemma {:induction false} MaskEmailShape(local: string, domain: string)
    requires local != [] && '@' !in local && '@' !in domain
    ensures MaskEmail(local + "@" + domain) == Some(local[..if |local| < 2 then 1 else 2] + "...@" + domain)
  {
    var e := local + "@" + domain;
    BeforeAfterSplit(local, domain);
    assert Before(e, '@') == local && After(e, '@') == domain;
    assert '@' in e by { assert e[|local|] == '@'; }
    BeforeAbsent(domain, '@');
  }

  lemma {:induction false} BeforeAbsent(s: string, c: char)
    requires c !in s
    ensures Before(s, c) == s
  {
    if s != [] {
      assert c !in s[1..];
      BeforeAbsent(s[1..], c);
      assert [s[0]] + s[1..] == s;
    }
  }

  lemma {:induction false} BeforeAfterSplit(a: string, b: string)
    requires '@' !in a
    ensures Before(a + "@" + b, '@') == a && After(a + "@" + b, '@') == b
    decreases |a|
  {
    var e := a + "@" + b;
    if a == [] {
      assert e == "@" + b && e[0] == '@' && e[1..] == b;
    } else {
      assert e[0] == a[0] && e[0] != '@';
      assert e[1..] == a[1..] + "@" + b;
      assert '@' !in a[1..];
      BeforeAfterSplit(a[1..], b);
      assert [a[0]] + a[1..] == a;
    }
  }

  /** MaskPhone; None is the slice panic for a non-empty number shorter than six. */
  function MaskPhone(phone: string): (r: Option<string>)
    ensures phone == "" ==> r == Some("")
    ensures r.None? <==> 0 < |phone| < 6
    ensures |phone| >= 6 ==>
              |r.value| == 11 && r.value[..6] == phone[..6]
              && r.value[6..10] == "...." && r.value[10] == phone[|phone| - 1]
  {
    if phone == "" then Some("")
    else if |phone| < 6 then None
    else Some(phone[..6] + "...." + phone[|phone| - 1..])
  }

  /**
   * index(s, r): the byte offset of the first occurrence of `r`, or -1.
   * The scan walks the runes of `s`, as a Go range loop does.
   */
  method Index(s: string, r: char) returns (i: int)
    ensures i < 0 <==> r !in s
    ensures i < 0 ==> i == -1
    ensures i >= 0 ==> exists k :: 0 <= k < |s| && s[k] == r && r !in s[..k] && i == Utf8Len(s[..k])
  {
    var k := 0;
    var offset := 0;
    while k < |s|
      invariant 0 <= k <= |s|
      invariant r !in s[..k]
      invariant offset == Utf8Len(s[..k])
    {
      if s[k] == r {
        return offset;
      }
      assert s[..k + 1][..k] == s[..k];
      offset := offset + Utf8Width(s[k]);
      k := k + 1;
    }
    assert s[..k] == s;
    return -1;
  }

  /** GetStringIfNotNull */
  function GetStringIfNotNull(str: Option<string>): (r: string)
    ensures str.None? ==> r == ""
    ensures str.Some? ==> r == str.value
  {
    if str.None? then "" else str.value
  }

  /** StringSetNullIfEmpty */
  function StringSetNullIfEmpty(str: string): (r: Option<string>)
    ensures r.None? <==> str == ""
    ensures r.Some? ==> r.value == str
  {
    if str == "" then None else Some(str)
  }

  lemma NullableRoundTrip(s: string)
    ensures GetStringIfNotNull(StringSetNullIfEmpty(s)) == s
  {
  }
}
