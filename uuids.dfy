/**
 * The subset of github.com/google/uuid the service uses: the canonical text
 * form of an id and uuid.Parse, which accepts the hyphenated form, the
 * "urn:uuid:" form, the braced form and 32 bare hex digits, in either case.
 */
module Uuids {
  import opened Wrappers
  import opened GoStrings

  predicate IsHex(c: char)
  {
    '0' <= c <= '9' || 'a' <= c <= 'f' || 'A' <= c <= 'F'
  }

  predicate IsLowerHex(c: char)
  {
    '0' <= c <= '9' || 'a' <= c <= 'f'
  }

  predicate Canonical(s: string)
  {
    |s| == 32 && forall i :: 0 <= i < 32 ==> IsLowerHex(s[i])
  }

  /** A UUID: its 16 bytes as 32 lower-case hex digits. */
  type Uuid = s: string | Canonical(s) witness "00000000000000000000000000000000"

  /** A version-4 (random) UUID, the kind uuid.New returns and the uuid4 tag accepts. */
  predicate IsV4(u: Uuid)
  {
    u[12] == '4' && u[16] in "89ab"
  }

  /** UUID.String(): the hyphenated lower-case form. */
  function ToString(u: Uuid): (s: string)
    ensures |s| == 36 && IsAscii(s)
  {
    u[0..8] + "-" + u[8..12] + "-" + u[12..16] + "-" + u[16..20] + "-" + u[20..32]
  }

  function LowerAll(s: string): (r: string)
    ensures |r| == |s| && forall i :: 0 <= i < |s| ==> r[i] == LowerAscii(s[i])
  {
    if s == [] then [] else [LowerAscii(s[0])] + LowerAll(s[1..])
  }

  predicate AllHex(s: string)
  {
    forall i :: 0 <= i < |s| ==> IsHex(s[i])
  }

  /** 32 hex digits in either case, as a UUID. */
  function HexDigits(s: string): (r: Option<Uuid>)
    requires |s| == 32
    ensures r.Some? <==> AllHex(s)
  {
    if AllHex(s) then Some(LowerAll(s)) else None
  }

  /** The hyphenated layout, looked at in the first 36 characters of `t`. */
  function Hyphenated(t: string): (r: Option<Uuid>)
    requires |t| >= 36
  {
    if t[8] != '-' || t[13] != '-' || t[18] != '-' || t[23] != '-' then None
    else HexDigits(t[0..8] + t[9..13] + t[14..18] + t[19..23] + t[24..36])
  }

  /**
   * uuid.Parse. Every layout checks every byte it reads, so text that is not
   * ASCII never parses; the braced layout does not look at the braces.
   */
  function Parse(s: string): (r: Option<Uuid>)
    ensures r.Some? ==> |s| in {32, 36, 38, 45}
  {
    if !IsAscii(s) then None
    else if |s| == 36 then Hyphenated(s)
    else if |s| == 45 then (if EqualFold(s[..9], "urn:uuid:") then Hyphenated(s[9..]) else None)
    else if |s| == 38 then Hyphenated(s[1..])
    else if |s| == 32 then HexDigits(s)
    else None
  }

  lemma {:induction false} LowerAllCanonical(u: Uuid)
    ensures LowerAll(u) == u
  {
    var l := LowerAll(u);
    assert forall i :: 0 <= i < 32 ==> l[i] == u[i];
  }

  /** The text form of an id parses back to the same id. */
  lemma {:induction false} ParseToString(u: Uuid)
    ensures Parse(ToString(u)) == Some(u)
  {
    var t := ToString(u);
    assert t[8] == '-' && t[13] == '-' && t[18] == '-' && t[23] == '-';
    var digits := t[0..8] + t[9..13] + t[14..18] + t[19..23] + t[24..36];
    assert t[0..8] == u[0..8] && t[9..13] == u[8..12] && t[14..18] == u[12..16];
    assert t[19..23] == u[16..20] && t[24..36] == u[20..32];
    assert digits == u;
    assert AllHex(digits);
    LowerAllCanonical(u);
  }

  /** Parsing normalises case: the id read from the text is what its letters spell in lower case. */
  lemma {:induction false} ParseBareHex(s: string)
    requires |s| == 32 && AllHex(s)
    ensures Parse(s) == Some(LowerAll(s))
  {
    assert IsAscii(s) by {
      forall i | 0 <= i < |s| ensures s[i] as int < 0x80 { assert IsHex(s[i]); }
    }
  }
}
