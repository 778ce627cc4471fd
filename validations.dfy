/**
 * The field validators of the request types, each written as the length
 * checks it performs followed by its regular expression, with the
 * expression's bracket classes spelled out as lists of character ranges, and
 * the struct-level validators as lists of the violations they report.
 *
 * Go's regexp (RE2) anchors `$` at the end of the text and reads `\s` as
 * [\t\n\f\r ] and `\d` as [0-9]. The username and password patterns are
 * compiled with regexp2, which follows .NET: there `$` also matches just
 * before a final "\n", and `.` matches anything but "\n".
 */
module Validations {
  import opened Wrappers
  import opened GoStrings
  import opened Errors
  import opened IoAuth
  import Uuids

  predicate IsAsciiLetter(c: char) { 'a' <= c <= 'z' || 'A' <= c <= 'Z' }

  predicate IsAlnum(c: char) { IsAsciiLetter(c) || '0' <= c <= '9' }

  /** RE2's `\s`. */
  predicate IsReSpace(c: char) { c == '\t' || c == '\n' || c == '\U{0C}' || c == '\r' || c == ' ' }

  /** `[\x{0600}-\x{06FF}\x{FB50}-\x{FDFF}a-zA-Z\s-]` */
  predicate IsNameChar(c: char)
  {
    '\U{0600}' <= c <= '\U{06FF}' || '\U{FB50}' <= c <= '\U{FDFF}' || IsAsciiLetter(c) || IsReSpace(c) || c == '-'
  }

  /** nameValidator: Go's len() counts bytes, the `{2,250}` repetition counts characters. */
  function NameValidator(s: string): (ok: bool)
    ensures ok ==> |s| <= 250 && forall i :: 0 <= i < |s| ==> IsNameChar(s[i])
    ensures ok && s != "" ==> 2 <= |s|
  {
    Utf8Len(s) == 0 || (2 <= Utf8Len(s) <= 250 && 2 <= |s| <= 250 && forall i :: 0 <= i < |s| ==> IsNameChar(s[i]))
  }

  /** Each Arabic letter takes two bytes, so an all-Arabic name is accepted only up to 125 letters. */
  lemma {:induction false} ArabicNameLimit(s: string)
    requires s != [] && forall i :: 0 <= i < |s| ==> '\U{0600}' <= s[i] <= '\U{06FF}'
    ensures NameValidator(s) <==> 1 < |s| <= 125
  {
    ArabicLen(s);
  }

  lemma {:induction false} ArabicLen(s: string)
    requires forall i :: 0 <= i < |s| ==> '\U{0600}' <= s[i] <= '\U{06FF}'
    ensures Utf8Len(s) == 2 * |s|
  {
    if s != [] { ArabicLen(s[..|s| - 1]); }
  }

  /** `[a-zA-Z0-9\-_]` */
  predicate IsUsernameChar(c: char) { IsAlnum(c) || c == '-' || c == '_' }

  /** `[a-zA-Z0-9\-_]+(\.[a-zA-Z0-9\-_]+)*` matching all of `s`. */
  predicate Segments(s: string)
    decreases |s|, 1
  {
    s != [] && IsUsernameChar(s[0]) && SegmentsRest(s[1..])
  }

  predicate SegmentsRest(t: string)
    decreases |t|, 0
  {
    t == []
    || (IsUsernameChar(t[0]) && SegmentsRest(t[1..]))
    || (t[0] == '.' && Segments(t[1..]))
  }

  /** No ".." before the first "\n": the lookahead `(?!.*\.\.)` at the start. */
  predicate NoDoubleDotInFirstLine(s: string)
  {
    var line := Before(s, '\n');
    forall i :: 0 <= i < |line| - 1 ==> !(line[i] == '.' && line[i + 1] == '.')
  }

  /** The regexp2 match of `^(?!.*\.\.)[a-zA-Z0-9\-_]+(\.[a-zA-Z0-9\-_]+)*$`. */
  predicate UsernamePattern(s: string)
  {
    NoDoubleDotInFirstLine(s)
    && (Segments(s) || (s != [] && s[|s| - 1] == '\n' && Segments(s[..|s| - 1])))
  }

  /** usernameValidator, as written. */
  function UsernameValidator(s: string): (ok: bool)
    ensures ok ==> |s| <= 64
    ensures ok && '\n' !in s ==> UsernameValidatorCorrected(s)
  {
    Utf8Len(s) == 0 || (3 <= Utf8Len(s) <= 64 && UsernamePattern(s))
  }

  /** A run of dot-separated segments: no "\n", no "..", and no dot at either end. */
  lemma {:induction false} SegmentsShape(s: string)
    requires Segments(s)
    ensures s != [] && s[0] != '.' && s[|s| - 1] != '.' && '\n' !in s
    ensures forall i :: 0 <= i < |s| ==> IsUsernameChar(s[i]) || s[i] == '.'
    ensures forall i :: 0 <= i < |s| - 1 ==> !(s[i] == '.' && s[i + 1] == '.')
    decreases |s|, 1
  {
    SegmentsRestShape(s[1..]);
    assert s == [s[0]] + s[1..];
  }

  lemma {:induction false} SegmentsRestShape(t: string)
    requires SegmentsRest(t)
    ensures t != [] ==> t[|t| - 1] != '.' && '\n' !in t
    ensures forall i :: 0 <= i < |t| ==> IsUsernameChar(t[i]) || t[i] == '.'
    ensures forall i :: 0 <= i < |t| - 1 ==> !(t[i] == '.' && t[i + 1] == '.')
    ensures t != [] && t[0] == '.' ==> |t| > 1 && t[1] != '.'
    decreases |t|, 0
  {
    if t == [] {
    } else if IsUsernameChar(t[0]) && SegmentsRest(t[1..]) {
      SegmentsRestShape(t[1..]);
      assert t == [t[0]] + t[1..];
    } else {
      SegmentsShape(t[1..]);
      assert t == [t[0]] + t[1..];
    }
  }

  /** The username with any final newline removed is made of dot-separated segments. */
  lemma {:induction false} UsernameAccepts(s: string)
    requires UsernameValidator(s) && s != ""
    ensures 3 <= Utf8Len(s) <= 64 && |s| <= 64
    ensures Segments(s) || (s[|s| - 1] == '\n' && Segments(s[..|s| - 1]))
  {
  }

  /** The `$` of regexp2 lets a final newline through: "abc\n" is a valid username. */
  lemma UsernameTrailingNewline()
    ensures UsernameValidator("abc\n")
    ensures !Segments("abc\n")
  {
    assert Segments("abc") by {
      assert "abc"[1..] == "bc" && "bc"[1..] == "c" && "c"[1..] == [];
    }
    assert "abc\n"[..3] == "abc";
    assert Before("abc\n", '\n') == "abc" by {
      assert "abc\n"[1..] == "bc\n" && "bc\n"[1..] == "c\n" && "c\n"[1..] == "\n";
    }
    assert Utf8Len("abc\n") == 4 by { Utf8LenAscii("abc\n"); }
    SegmentsNoNewline("abc\n");
  }

  lemma SegmentsNoNewline(s: string)
    requires s != [] && s[|s| - 1] == '\n'
    ensures !Segments(s)
  {
    if Segments(s) { SegmentsShape(s); }
  }

  /** usernameValidator as evidently intended: no trailing newline. */
  predicate UsernameValidatorCorrected(s: string)
  {
    s == "" || (3 <= Utf8Len(s) <= 64 && Segments(s))
  }

  lemma {:induction false} UsernameCorrectedShape(s: string)
    requires UsernameValidatorCorrected(s) && s != ""
    ensures 3 <= |s| <= 64 && s[0] != '.' && s[|s| - 1] != '.' && '\n' !in s
    ensures forall i :: 0 <= i < |s| - 1 ==> !(s[i] == '.' && s[i + 1] == '.')
  {
    SegmentsShape(s);
    assert IsAscii(s) by {
      forall i | 0 <= i < |s| ensures s[i] as int < 0x80 {
        assert IsUsernameChar(s[i]) || s[i] == '.';
      }
    }
    Utf8LenAscii(s);
  }

  /** regexp2's `\w` on ASCII; characters beyond ASCII are counted as word characters. */
  predicate IsWordChar(c: char)
  {
    IsAlnum(c) || c == '_' || c as int >= 0x80
  }

  predicate HasUpper(s: string) { exists i :: 0 <= i < |s| && 'A' <= s[i] <= 'Z' }

  predicate HasDigit(s: string) { exists i :: 0 <= i < |s| && '0' <= s[i] <= '9' }

  /** `[\W_]` occurs. */
  predicate HasSpecial(s: string) { exists i :: 0 <= i < |s| && (!IsWordChar(s[i]) || s[i] == '_') }

  /**
   * The regexp2 match of `^(?=.*[A-Z])(?=.*[0-9])(?=.*[\W_]).{8,100}$`.
   * `.{8,100}$` covers the text up to an optional final "\n"; in each
   * lookahead `.*` stops before that "\n", and `[\W_]` may then match the
   * "\n" itself, so a final newline counts as the special character.
   */
  function PasswordPattern(s: string): (ok: bool)
    ensures ok ==> 8 <= |s| <= 101 && HasUpper(s) && HasDigit(s) && HasSpecial(s)
    ensures ok ==> forall i :: 0 <= i < |s| - 1 ==> s[i] != '\n'
  {
    var line := if s != [] && s[|s| - 1] == '\n' then s[..|s| - 1] else s;
    var newline := s != [] && s[|s| - 1] == '\n';
    assert HasUpper(line) ==> HasUpper(s) by {
      if HasUpper(line) { var i :| 0 <= i < |line| && 'A' <= line[i] <= 'Z'; assert s[i] == line[i]; }
    }
    assert HasDigit(line) ==> HasDigit(s) by {
      if HasDigit(line) { var i :| 0 <= i < |line| && '0' <= line[i] <= '9'; assert s[i] == line[i]; }
    }
    assert HasSpecial(line) || newline ==> HasSpecial(s) by {
      if HasSpecial(line) {
        var i :| 0 <= i < |line| && (!IsWordChar(line[i]) || line[i] == '_'); assert s[i] == line[i];
      } else if newline {
        assert !IsWordChar(s[|s| - 1]);
      }
    }
    '\n' !in line && 8 <= |line| <= 100 && HasUpper(line) && HasDigit(line) && (HasSpecial(line) || newline)
  }

  /**
   * passwordValidator, as written. Apart from a final newline it agrees
   * with the end-anchored reading; a final newline is let through, and
   * counts as the special character.
   */
  function PasswordValidator(s: string): (ok: bool)
    ensures PasswordValidatorCorrected(s) ==> ok
    ensures ok && '\n' !in s ==> PasswordValidatorCorrected(s)
    ensures ok && s != "" ==> HasUpper(s) && HasDigit(s) && HasSpecial(s)
  {
    Utf8Len(s) == 0 || (8 <= Utf8Len(s) <= 100 && PasswordPattern(s))
  }

  /** A final newline is let through, even where it is the only special character. */
  lemma PasswordNewlineIsSpecial()
    ensures PasswordValidator("Passw0rd\n")
    ensures !PasswordValidatorCorrected("Passw0rd\n")
  {
    var s := "Passw0rd\n";
    var line := s[..|s| - 1];
    assert line == "Passw0rd";
    assert line[0] == 'P' && line[5] == '0';
    assert s[8] == '\n';
    Utf8LenAscii(s);
  }

  /** A final newline is let through here too. */
  lemma PasswordTrailingNewline()
    ensures PasswordValidator("Passw0rd!\n")
    ensures '\n' in "Passw0rd!\n"
  {
    var s := "Passw0rd!\n";
    var line := s[..|s| - 1];
    assert line == "Passw0rd!";
    assert line[0] == 'P' && line[5] == '0' && line[8] == '!';
    assert !IsWordChar('!');
    Utf8LenAscii(s);
  }

  /** passwordValidator as evidently intended: the whole text is the password. */
  predicate PasswordValidatorCorrected(s: string)
  {
    s == "" || (8 <= Utf8Len(s) <= 100 && 8 <= |s| <= 100 && '\n' !in s && HasUpper(s) && HasDigit(s) && HasSpecial(s))
  }

  lemma PasswordCorrectedNoNewline(s: string)
    requires PasswordValidatorCorrected(s) && s != ""
    ensures '\n' !in s && 8 <= |s| <= 100 && HasUpper(s) && HasDigit(s) && HasSpecial(s)
  {
  }

  /** PhoneValidator: eleven bytes matching `^0\d{10}$`. */
  function PhoneValidator(s: string): (ok: bool)
    ensures ok ==> |s| == 11 && AllDigits(s)
  {
    Utf8Len(s) == 11 && s != [] && s[0] == '0' && |s[1..]| == 10 && AllDigits(s[1..])
  }

  lemma PhoneAccepts(s: string)
    ensures PhoneValidator(s) <==> |s| == 11 && s[0] == '0' && AllDigits(s)
  {
    if |s| == 11 && s[0] == '0' && AllDigits(s) {
      assert IsAscii(s) by {
        forall i | 0 <= i < |s| ensures s[i] as int < 0x80 { assert IsDigit(s[i]); }
      }
      Utf8LenAscii(s);
      assert forall i :: 0 <= i < 10 ==> s[1..][i] == s[i + 1];
    }
    if PhoneValidator(s) {
      assert forall i :: 1 <= i < 11 ==> s[i] == s[1..][i - 1];
    }
  }

  /** phoneValidator: the empty phone is allowed. */
  predicate PhoneField(s: string) { s == "" || PhoneValidator(s) }

  function UserTypeValidator(v: string): (ok: bool)
    ensures ok <==> v == "admin" || v == "client"
  {
    v in AllUserTypes
  }

  function NonClientUserTypeValidator(v: string): (ok: bool)
    ensures ok <==> v == "admin"
  {
    v != ClientUserType && v in AllUserTypes
  }

  function NonAdminUserTypeValidator(v: string): (ok: bool)
    ensures ok <==> v == "client"
  {
    v != AdminUserType && v in AllUserTypes
  }

  /** OtpTokenValidator: five bytes matching `^\d{5}$`. */
  function OtpTokenValidator(s: string): (ok: bool)
    ensures ok ==> IsAscii(s) && |s| == 5
  {
    Utf8Len(s) == 5 && |s| == 5 && AllDigits(s)
  }

  lemma OtpTokenAccepts(s: string)
    ensures OtpTokenValidator(s) <==> |s| == 5 && AllDigits(s)
  {
    if |s| == 5 && AllDigits(s) {
      assert IsAscii(s) by {
        forall i | 0 <= i < |s| ensures s[i] as int < 0x80 { assert IsDigit(s[i]); }
      }
      Utf8LenAscii(s);
    }
  }

  /**
   * `[a-zA-Z0-9!@#$%^&*()-_=+]` as the regexp engine reads it: `)-_` is the
   * range from ')' to '_', not three characters.
   */
  predicate IsOtpKeyChar(c: char)
  {
    IsAlnum(c) || c in "!@#$%^&*(=+" || ')' <= c <= '_'
  }

  /** otpKeyValidator, as written. */
  function OtpKeyValidator(s: string): (ok: bool)
    ensures ok ==> IsAscii(s) && (|s| == 0 || |s| == 8)
  {
    Utf8Len(s) == 0 || (Utf8Len(s) == 8 && |s| == 8 && forall i :: 0 <= i < |s| ==> IsOtpKeyChar(s[i]))
  }

  /** The class as evidently intended: the characters the key generator draws from. */
  predicate IsOtpKeyCharCorrected(c: char)
  {
    IsAlnum(c) || c in "!@#$%^&*()-_=+"
  }

  predicate OtpKeyValidatorCorrected(s: string)
  {
    s == "" || (Utf8Len(s) == 8 && |s| == 8 && forall i :: 0 <= i < |s| ==> IsOtpKeyCharCorrected(s[i]))
  }

  /** The written class admits a comma (and . / : ; < > ? [ \ ]), which no generated key holds. */
  lemma OtpKeyAcceptsComma()
    ensures OtpKeyValidator("aaaaaaa,")
    ensures !OtpKeyValidatorCorrected("aaaaaaa,")
  {
    Utf8LenAscii("aaaaaaa,");
    assert "aaaaaaa,"[7] == ',';
    assert !IsOtpKeyCharCorrected(',');
  }

  /** The corrected class is contained in the written one: nothing valid before is rejected. */
  lemma OtpKeyCorrectedNarrows(s: string)
    requires OtpKeyValidatorCorrected(s)
    ensures OtpKeyValidator(s)
  {
    if s != "" {
      forall i | 0 <= i < |s| ensures IsOtpKeyChar(s[i]) {
        assert IsOtpKeyCharCorrected(s[i]);
      }
    }
  }

  /** The admin sign-up key is not an OTP type a client may ask for. */
  function OtpTypeValidator(v: string): (ok: bool)
    ensures ok ==> v != AdminSignupKeyOtpType
  {
    v in OtpTypes
  }

  /** `[a-zA-Z0-9._%+-]` */
  predicate IsEmailLocalChar(c: char) { IsAlnum(c) || c in "._%+-" }

  /** `[a-zA-Z0-9.-]` */
  predicate IsEmailDomainChar(c: char) { IsAlnum(c) || c in ".-" }

  /** The index of the last `c` in `s`, or -1. */
  function LastIndex(s: string, c: char): (j: int)
    ensures -1 <= j < |s|
    ensures j >= 0 ==> s[j] == c && c !in s[j + 1..]
    ensures j < 0 ==> c !in s
  {
    if s == [] then -1
    else if s[|s| - 1] == c then |s| - 1
    else
      var j := LastIndex(s[..|s| - 1], c);
      assert j >= 0 ==> s[j + 1..] == s[..|s| - 1][j + 1..] + [s[|s| - 1]];
      assert j < 0 ==> s == s[..|s| - 1] + [s[|s| - 1]];
      j
  }

  /**
   * EmailValidator: `^[a-zA-Z0-9._%+-]+@[a-zA-Z0-9.-]+\.[a-zA-Z]{2,}$`. The
   * classes exclude '@', so the split is at the only '@'; the top-level
   * label contains no '.', so it follows the last dot.
   */
  function EmailValidator(s: string): (ok: bool)
    ensures ok ==> s != [] && s[0] != '@' && IsAsciiLetter(s[|s| - 1])
  {
    '@' in s
    && var local := Before(s, '@');
    var rest := After(s, '@');
    var j := LastIndex(rest, '.');
    local != [] && (forall i :: 0 <= i < |local| ==> IsEmailLocalChar(local[i]))
    && j >= 1 && (forall i :: 0 <= i < j ==> IsEmailDomainChar(rest[i]))
    && |rest| - j - 1 >= 2 && (forall i :: j < i < |rest| ==> IsAsciiLetter(rest[i]))
  }

  /** A valid address has one '@' with text on both sides, so masking it cannot fail. */
  lemma {:induction false} EmailValidMasks(s: string)
    requires EmailValidator(s)
    ensures exists local, domain :: s == local + "@" + domain && local != [] && '@' !in local && '@' !in domain
  {
    var local := Before(s, '@');
    var rest := After(s, '@');
    var j := LastIndex(rest, '.');
    assert s == local + "@" + rest;
    assert '@' !in rest by {
      forall i | 0 <= i < |rest| ensures rest[i] != '@' {
        if i < j {
          assert IsEmailDomainChar(rest[i]);
        } else if i > j {
          assert IsAsciiLetter(rest[i]);
        }
      }
    }
  }

  /** emailValidator: the empty address is allowed. */
  predicate EmailField(s: string) { s == "" || EmailValidator(s) }

  /** avatarObjectNameValidator: "<uuid>.png". */
  function AvatarObjectNameValidator(s: string): (ok: bool)
    ensures ok ==> |s| - 4 in {32, 36, 38, 45}
  {
    |s| >= 4 && s[|s| - 4..] == ".png" && Uuids.Parse(s[..|s| - 4]).Some?
  }

  lemma AvatarObjectNameOfId(u: Uuids.Uuid)
    ensures AvatarObjectNameValidator(Uuids.ToString(u) + ".png")
  {
    var s := Uuids.ToString(u) + ".png";
    assert s[..|s| - 4] == Uuids.ToString(u);
    Uuids.ParseToString(u);
  }

  const DataUriPrefixes: seq<string> :=
    ["data:image/png;base64,", "data:image/jpg;base64,", "data:image/jpeg;base64,"]

  /** `^data:image/(png|jpg|jpeg);base64,(.+)$` under RE2. */
  predicate DataUri(s: string)
  {
    exists k :: 0 <= k < |DataUriPrefixes| && DataUriPrefixes[k] <= s
      && |s| > |DataUriPrefixes[k]| && '\n' !in s[|DataUriPrefixes[k]|..]
  }

  /**
   * AvatarValidator: Ok(false) for no avatar, Ok(true) for an accepted
   * image. `decoded` is the verdict of base64 decoding and the image
   * pipeline, which are outside this model.
   */
  function AvatarValidator(avatar: string, decoded: Option<ErrorValue>): (r: Outcome<bool>)
    ensures avatar == "" ==> r == Ok(false)
    ensures r == Ok(true) <==> avatar != "" && DataUri(avatar) && decoded.None?
    ensures avatar != "" && !DataUri(avatar) ==> r == Fail(Template(BadRequestAppCode))
  {
    if avatar == "" then Ok(false)
    else if !DataUri(avatar) then Fail(Template(BadRequestAppCode))
    else if decoded.Some? then Fail(decoded.value)
    else Ok(true)
  }

  /** A violation reported by a struct-level validator: the fields and the tag. */
  datatype Violation = Violation(field: string, tag: string)

  function When(c: bool, v: Violation): seq<Violation>
  {
    if c then [v] else []
  }

  predicate NotExactlyOne(a: string, b: string)
  {
    (a != "" && b != "") || (a == "" && b == "")
  }

  /** authMethodOtpGetRequestValidator */
  function MethodOtpGetViolations(r: AuthMethodOtpGetRequest): (vs: seq<Violation>)
    ensures vs == [] <==>
              (r.sendToEmail != r.sendToPhone
               && (r.sendToEmail ==> r.email != "" && r.phoneNumber == "")
               && (r.sendToPhone ==> r.phoneNumber != "" && r.email == ""))
  {
    When(r.sendToEmail == r.sendToPhone, Violation("SendToEmail,SendToPhone", "exactlyOneSendMethod"))
    + When(NotExactlyOne(r.email, r.phoneNumber), Violation("Email,PhoneNumber", "exactlyOneSendMethod"))
    + When(!r.sendToEmail && r.email != "", Violation("Email", "emailMustBeEmpty"))
    + When(r.sendToEmail && r.email == "" && r.otpType == SignupOtpType, Violation("Email", "emailIsRequired"))
    + When(!r.sendToPhone && r.phoneNumber != "", Violation("PhoneNumber", "phoneNumberMustBeEmpty"))
    + When(r.sendToPhone && r.phoneNumber == "" && r.otpType == SignupOtpType, Violation("PhoneNumber", "phoneNumberIsRequired"))
  }

  /** authSignupKeyGetRequestValidator */
  function SignupKeyGetViolations(r: AuthSignupKeyGetRequest): (vs: seq<Violation>)
    ensures vs == [] <==> (r.email == "") != (r.phoneNumber == "")
  {
    When(NotExactlyOne(r.email, r.phoneNumber), Violation("Email,PhoneNumber", "exactlyOneSendMethod"))
  }

  /** authSignupPostRequestValidator */
  function SignupPostViolations(r: AuthSignupPostRequest): (vs: seq<Violation>)
    ensures vs == [] <==> (r.email == "") != (r.phoneNumber == "")
  {
    When(NotExactlyOne(r.email, r.phoneNumber), Violation("Email,PhoneNumber", "exactlyOneSendMethod"))
  }

  /** authSigninPostRequestValidator */
  function SigninPostViolations(r: AuthSigninPostRequest): (vs: seq<Violation>)
    ensures vs == [] <==> r.sentToEmail != r.sentToPhone
  {
    When(r.sentToEmail == r.sentToPhone, Violation("SentToEmail,SentToPhone", "exactlyOneSendMethod"))
  }

  /** authResetPasswordPostRequestValidator */
  function ResetPasswordPostViolations(r: AuthResetPasswordPostRequest): (vs: seq<Violation>)
    ensures vs == [] <==> r.sentToEmail != r.sentToPhone
  {
    When(r.sentToEmail == r.sentToPhone, Violation("SentToEmail,SentToPhone", "exactlyOneSendMethod"))
  }

  // The `validate` tags of the request types, field by field.

  predicate Required(s: string) { s != "" }

  function CheckPostRequestValid(r: AuthCheckPostRequest): (ok: bool)
    ensures ok ==> r.userType in AllUserTypes && 1 <= |r.username| <= 64
  {
    Required(r.username) && UsernameValidator(r.username)
    && Required(r.userType) && UserTypeValidator(r.userType)
  }

  function MethodOtpGetRequestValid(r: AuthMethodOtpGetRequest): (ok: bool)
    ensures ok ==> r.userType in AllUserTypes && r.otpType != AdminSignupKeyOtpType
    ensures ok && r.sendToPhone ==> !r.sendToEmail && r.email == "" && |r.phoneNumber| == 11 && AllDigits(r.phoneNumber)
    ensures ok && r.sendToEmail ==> !r.sendToPhone && r.phoneNumber == "" && EmailValidator(r.email)
  {
    Required(r.username) && UsernameValidator(r.username)
    && EmailField(r.email) && PhoneField(r.phoneNumber)
    && Required(r.otpType) && OtpTypeValidator(r.otpType)
    && Required(r.userType) && UserTypeValidator(r.userType)
    && MethodOtpGetViolations(r) == []
  }

  /** Only admins may ask for a sign-up key, by exactly one contact. */
  function SignupKeyGetRequestValid(r: AuthSignupKeyGetRequest): (ok: bool)
    ensures ok ==> r.userType == AdminUserType && (r.email == "") != (r.phoneNumber == "")
  {
    EmailField(r.email) && PhoneField(r.phoneNumber)
    && Required(r.userType) && NonClientUserTypeValidator(r.userType)
    && SignupKeyGetViolations(r) == []
  }

  /** `avatarOk` is the image pipeline's verdict on a non-empty avatar. */
  function SignupPostRequestValid(r: AuthSignupPostRequest, avatarOk: bool): (ok: bool)
    ensures ok ==> r.userType in AllUserTypes && |r.token| == 5 && AllDigits(r.token)
    ensures ok ==> (r.email == "") != (r.phoneNumber == "")
    ensures ok && r.password != "" ==> HasUpper(r.password) && HasDigit(r.password) && HasSpecial(r.password)
  {
    OtpTokenAccepts(r.token);
    Required(r.username) && UsernameValidator(r.username)
    && Required(r.name) && NameValidator(r.name)
    && (r.avatar == "" || avatarOk)
    && PhoneField(r.phoneNumber) && EmailField(r.email)
    && Required(r.userType) && UserTypeValidator(r.userType)
    && PasswordValidator(r.password)
    && Required(r.token) && OtpTokenValidator(r.token)
    && OtpKeyValidator(r.key)
    && SignupPostViolations(r) == []
  }

  function SigninPostRequestValid(r: AuthSigninPostRequest): (ok: bool)
    ensures ok ==> r.userType in AllUserTypes && |r.token| == 5 && AllDigits(r.token)
    ensures ok ==> r.sentToEmail != r.sentToPhone
  {
    OtpTokenAccepts(r.token);
    Required(r.username) && UsernameValidator(r.username)
    && Required(r.userType) && UserTypeValidator(r.userType)
    && Required(r.token) && OtpTokenValidator(r.token)
    && SigninPostViolations(r) == []
  }

  function SigninPasswordPostRequestValid(r: AuthSigninPasswordPostRequest): (ok: bool)
    ensures ok ==> r.userType in AllUserTypes && HasUpper(r.password) && HasDigit(r.password) && HasSpecial(r.password)
  {
    Required(r.username) && UsernameValidator(r.username)
    && Required(r.userType) && UserTypeValidator(r.userType)
    && Required(r.password) && PasswordValidator(r.password)
  }

  function ResetPasswordPostRequestValid(r: AuthResetPasswordPostRequest): (ok: bool)
    ensures ok ==> r.userType in AllUserTypes && |r.token| == 5 && AllDigits(r.token)
    ensures ok ==> r.sentToEmail != r.sentToPhone && HasUpper(r.password) && HasDigit(r.password) && HasSpecial(r.password)
  {
    OtpTokenAccepts(r.token);
    Required(r.username) && UsernameValidator(r.username)
    && Required(r.password) && PasswordValidator(r.password)
    && Required(r.userType) && UserTypeValidator(r.userType)
    && Required(r.token) && OtpTokenValidator(r.token)
    && ResetPasswordPostViolations(r) == []
  }

  function ResetPhonePostRequestValid(r: AuthResetPhonePostRequest): (ok: bool)
    ensures ok ==> r.userType in AllUserTypes && |r.token| == 5 && AllDigits(r.token)
    ensures ok ==> |r.phoneNumber| == 11 && AllDigits(r.phoneNumber)
  {
    OtpTokenAccepts(r.token);
    Uuids.IsV4(r.id)
    && Required(r.phoneNumber) && PhoneField(r.phoneNumber)
    && Required(r.userType) && UserTypeValidator(r.userType)
    && Required(r.token) && OtpTokenValidator(r.token)
  }

  function ResetEmailPostRequestValid(r: AuthResetEmailPostRequest): (ok: bool)
    ensures ok ==> r.userType in AllUserTypes && |r.token| == 5 && AllDigits(r.token)
    ensures ok ==> '@' in r.email
  {
    OtpTokenAccepts(r.token);
    Uuids.IsV4(r.id)
    && Required(r.email) && EmailField(r.email)
    && Required(r.userType) && UserTypeValidator(r.userType)
    && Required(r.token) && OtpTokenValidator(r.token)
  }

  /** The admin key is optional at validation: blanking it keeps a sign-up request valid. */
  lemma SignupKeyOptional(r: AuthSignupPostRequest, avatarOk: bool)
    ensures SignupPostRequestValid(r, avatarOk) ==> SignupPostRequestValid(r.(key := ""), avatarOk)
  {
  }
}
