/** The random one-time codes and signup keys the auth service issues. */
module Otp {
  import opened GoStrings
  import opened Funcs
  import opened Validations

  function DigitChar(d: nat): (c: char)
    requires d < 10
    ensures IsDigit(c) && c as int - '0' as int == d
  {
    ('0' as int + d) as char
  }

  /** The decimal digits of `n`, most significant first, with no leading zero. */
  function FormatDecimal(n: nat): (s: string)
    ensures s != [] && AllDigits(s) && DigitsValue(s) == n
    ensures n >= 10 ==> s[0] != '0'
    decreases n
  {
    if n < 10 then [DigitChar(n)]
    else
      var s := FormatDecimal(n / 10) + [DigitChar(n % 10)];
      assert s[..|s| - 1] == FormatDecimal(n / 10);
      s
  }

  function Pow10(k: nat): (p: nat)
    ensures p >= 1
  {
    if k == 0 then 1 else 10 * Pow10(k - 1)
  }

  lemma {:induction false} FormatLength(n: nat, k: nat)
    requires k >= 1 && Pow10(k - 1) <= n < Pow10(k)
    ensures |FormatDecimal(n)| == k
    decreases k
  {
    if k > 1 {
      assert Pow10(k - 1) == 10 * Pow10(k - 2);
      assert Pow10(k - 2) <= n / 10 < Pow10(k - 1);
      FormatLength(n / 10, k - 1);
    }
  }

  /** `%05d`: the decimal form, left-padded with zeros to five characters. */
  function Format05d(n: nat): (s: string)
    ensures AllDigits(s) && DigitsValue(s) == n
  {
    var d := FormatDecimal(n);
    if |d| < 5 then
      var z := seq(5 - |d|, _ => '0');
      LeadingZeros(z, d);
      z + d
    else d
  }

  lemma {:induction false} LeadingZeros(z: string, d: string)
    requires AllDigits(d) && forall i :: 0 <= i < |z| ==> z[i] == '0'
    ensures AllDigits(z + d) && DigitsValue(z + d) == DigitsValue(d) + DigitsValue(z) * Pow10(|d|)
    ensures DigitsValue(z) == 0
    decreases |d|, |z|
  {
    if d == [] {
      assert z + d == z;
      if z != [] {
        LeadingZeros(z[..|z| - 1], []);
      }
    } else {
      var d' := d[..|d| - 1];
      assert (z + d)[..|z + d| - 1] == z + d';
      LeadingZeros(z, d');
    }
  }

  /** generateRandomOTP: `%05d` of RandomInt(10000, 99999); `draw` is what the generator returned. */
  function GenerateRandomOtp(draw: nat): (code: string)
    requires draw <= 89999
    ensures OtpTokenValidator(code)
    ensures 10000 <= DigitsValue(code) <= 99999 && DigitsValue(code) == 10000 + draw
  {
    var n := RandomInt(10000, 99999, draw);
    assert Pow10(4) == 10000 && Pow10(5) == 100000 by {
      assert Pow10(1) == 10 && Pow10(2) == 100 && Pow10(3) == 1000;
    }
    FormatLength(n, 5);
    var code := Format05d(n);
    OtpTokenAccepts(code);
    code
  }

  /** Every code from 10000 to 99999 can be issued, and no other. */
  lemma OtpCodesCovered(n: nat)
    requires 10000 <= n <= 99999
    ensures DigitsValue(GenerateRandomOtp(n - 10000)) == n
  {
  }

  /** The key alphabet, in the order of the source's literal, in four runs. */
  const KeyLower: string := "abcdefghijklmnopqrstuvwxyz"
  const KeyUpper: string := "ABCDEFGHIJKLMNOPQRSTUVWXYZ"
  const KeyDigits: string := "0123456789"
  const KeySpecial: string := "!@#$%^&*()-_=+"
  const KeyAlphabet: string := KeyLower + KeyUpper + KeyDigits + KeySpecial

  lemma KeyRuns(j: nat)
    ensures j < 26 ==> 'a' <= KeyLower[j] <= 'z'
    ensures j < 26 ==> 'A' <= KeyUpper[j] <= 'Z'
    ensures j < 10 ==> '0' <= KeyDigits[j] <= '9'
    ensures j < 14 ==> KeySpecial[j] in "!@#$%^&*()-_=+"
  {
  }

  lemma {:induction false} KeyAlphabetChars(i: nat)
    requires i < |KeyAlphabet|
    ensures IsOtpKeyCharCorrected(KeyAlphabet[i])
  {
    var c := KeyAlphabet[i];
    if i < 26 {
      assert c == KeyLower[i];
      KeyRuns(i);
    } else if i < 52 {
      assert c == KeyUpper[i - 26];
      KeyRuns(i - 26);
    } else if i < 62 {
      assert c == KeyDigits[i - 52];
      KeyRuns(i - 52);
    } else {
      assert c == KeySpecial[i - 62];
      KeyRuns(i - 62);
    }
  }

  /** Draws that rand.Intn(len(chars)) can return for an eight-character key. */
  predicate KeyDraws(draws: seq<nat>)
  {
    |draws| == 8 && forall i :: 0 <= i < 8 ==> draws[i] < |KeyAlphabet|
  }

  /** The key the draws pick: character i is the alphabet's draws[i]-th. */
  function DrawnKey(draws: seq<nat>): string
    requires KeyDraws(draws)
  {
    seq(8, i requires 0 <= i < 8 => KeyAlphabet[draws[i]])
  }

  /**
   * generateRandomKey: eight characters, each drawn from the alphabet by
   * index; `draws` are the indices the generator returned.
   */
  method GenerateRandomKey(draws: seq<nat>) returns (key: string)
    requires KeyDraws(draws)
    ensures key == DrawnKey(draws)
    ensures OtpKeyValidatorCorrected(key) && OtpKeyValidator(key)
  {
    var result := new char[8];
    for i := 0 to 8
      invariant forall j :: 0 <= j < i ==> result[j] == KeyAlphabet[draws[j]]
    {
      result[i] := KeyAlphabet[draws[i]];
    }
    key := result[..];
    forall i | 0 <= i < 8 ensures IsOtpKeyCharCorrected(key[i]) {
      KeyAlphabetChars(draws[i]);
    }
    assert IsAscii(key) by {
      forall i | 0 <= i < 8 ensures key[i] as int < 0x80 { assert IsOtpKeyCharCorrected(key[i]); }
    }
    Utf8LenAscii(key);
    OtpKeyCorrectedNarrows(key);
  }
}
