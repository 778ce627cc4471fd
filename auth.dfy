/**
 * The auth service: signup with an optional admin invite key, OTP and
 * password signin, logout, refresh, the password/phone/email resets, and
 * the issuing of OTP codes and signup keys. Every flow is a script over the
 * cache and the user tables; what is consumed before what can fail is part
 * of each contract.
 */
module AuthService {
  import opened Wrappers
  import opened GoStrings
  import opened Errors
  import opened IoAuth
  import opened Uuids
  import opened Funcs
  import opened Validations
  import opened UserModels
  import opened Clocks
  import opened Jwts
  import opened Externals
  import opened Otp
  import Cache
  import Relational

  const AuthCaller: string := "services.Auth"

  /**
   * NewAuthService's start-up checks; a missing or malformed value is fatal.
   * The two lifetimes come back as time.Durations, in nanoseconds.
   */
  function AuthSettings(secret: string, accessExp: string, refreshExp: string,
                        domain: string, version: string, supportEmail: string): (r: Outcome<(int, int)>)
    ensures r.Ok? <==> secret != "" && ParseDecimal(accessExp).Some? && ParseDecimal(refreshExp).Some?
                       && domain != "" && version != "" && supportEmail != ""
    ensures r.Ok? ==> r.value == (WrapInt64(ParseDecimal(accessExp).value * MinuteNanos),
                                  WrapInt64(ParseDecimal(refreshExp).value * MinuteNanos))
    ensures !r.Ok? ==> r.Crash?
  {
    var a := GetenvAsMinuteDuration("JWT_ACCESS_EXP", accessExp, 0, true);
    var b := GetenvAsMinuteDuration("JWT_REFRESH_EXP", refreshExp, 0, true);
    if secret == "" then Crash("JWT_SECRET_KEY is not set")
    else if a.err.Some? then Crash(a.err.value)
    else if b.err.Some? then Crash(b.err.value)
    else if domain == "" then Crash("DOMAIN is not set")
    else if version == "" then Crash("VERSION is not set")
    else if supportEmail == "" then Crash("SUPPORT_EMAIL is not set")
    else Ok((a.nanos, b.nanos))
  }

  /** Signup's identity: the email when one is given, else the phone number. */
  function SignupIdentity(email: string, phoneNumber: string): string
  {
    if email != "" then email else phoneNumber
  }

  /** The contact a code sent for an existing account is stored under: its email if set, else its phone. */
  function AccountIdentity(row: Row): (identity: string)
    ensures row.GetEmail() != "" ==> identity == row.GetEmail()
    ensures row.GetEmail() == "" ==> identity == row.GetPhoneNumber()
  {
    if row.GetEmail() != "" then row.GetEmail() else row.GetPhoneNumber()
  }

  /** The contact SigninPost and ResetPasswordPost look the code up under: the one the caller names. */
  function ChosenIdentity(row: Row, sentToEmail: bool): string
  {
    if sentToEmail then row.GetEmail() else row.GetPhoneNumber()
  }

  /** The contact ResetPhonePost (`byPhone`) and ResetEmailPost look the code up under: the one being replaced. */
  function ContactOf(row: Row, byPhone: bool): string
  {
    if byPhone then row.GetPhoneNumber() else row.GetEmail()
  }

  /** Where SignupPost reads the admin invite key and the signup code. */
  function SignupKeyKey(req: AuthSignupPostRequest): string
  {
    Cache.OtpKeyKey(SignupIdentity(req.email, req.phoneNumber), req.userType)
  }

  function SignupCodeKey(req: AuthSignupPostRequest): string
  {
    Cache.OtpTokenKey(SignupIdentity(req.email, req.phoneNumber), req.userType, SignupOtpType)
  }

  /**
   * A code SendOtp stores for an account with both contacts lies under the
   * email, so signing in with SentToEmail false looks under the phone and
   * finds nothing.
   */
  lemma PhoneSigninMissesEmailCode(row: Row)
    requires row.GetEmail() != "" && row.GetPhoneNumber() != "" && row.GetEmail() != row.GetPhoneNumber()
    ensures ChosenIdentity(row, false) != AccountIdentity(row)
    ensures ChosenIdentity(row, true) == AccountIdentity(row)
  {
  }

  /**
   * SendOtp's checks before the cache is touched, in the order they run.
   * `cap` is the contact-cap check for the signup contact (email if given,
   * else phone). The result is the identity the code is stored under and the
   * masked contact to report.
   */
  function OtpTarget(req: AuthMethodOtpGetRequest, f: Relational.Fetch, cap: Outcome<()>): (r: Outcome<(string, AuthMethodOtpGetResponse)>)
    ensures f.isDeleted ==> r == Fail(Template(UserDeletedAppCode))
    ensures !f.isDeleted && f.user.None? && req.otpType != SignupOtpType ==>
              r == Fail(Template(UsernameNotFoundAppCode).WithReason("username", req.username))
    ensures !f.isDeleted && f.user.Some? && req.otpType == SignupOtpType ==>
              r == Fail(Template(UsernameAlreadyExistsAppCode).WithReason("username", req.username))
    ensures !f.isDeleted && f.user.None? && req.otpType == SignupOtpType && cap.Failed() ==> r == cap.Forward()
    ensures r.Ok? ==> !f.isDeleted && r.value.0 != ""
    ensures r.Ok? && req.otpType == SignupOtpType ==>
              f.user.None? && cap.Ok? && r.value.0 == SignupIdentity(req.email, req.phoneNumber)
    ensures r.Ok? && req.otpType != SignupOtpType ==> f.user.Some? && r.value.0 == AccountIdentity(f.user.value)
    ensures r.Ok? && req.sendToEmail ==> Some(r.value.1.maskedEmail) == MaskEmail(r.value.0) && r.value.1.maskedPhone == ""
    ensures r.Ok? && !req.sendToEmail ==> Some(r.value.1.maskedPhone) == MaskPhone(r.value.0) && r.value.1.maskedEmail == ""
  {
    if f.isDeleted then Fail(Template(UserDeletedAppCode))
    else if f.user.None? && req.otpType != SignupOtpType then
      Fail(Template(UsernameNotFoundAppCode).WithReason("username", req.username))
    else if f.user.Some? && req.otpType == SignupOtpType then
      Fail(Template(UsernameAlreadyExistsAppCode).WithReason("username", req.username))
    else if req.otpType == SignupOtpType && cap.Failed() then cap.Forward()
    else
      var identity := if req.otpType == SignupOtpType then SignupIdentity(req.email, req.phoneNumber) else AccountIdentity(f.user.value);
      if req.sendToEmail && identity == "" then Fail(Template(UserHasNotSetEmailAppCode))
      else if !req.sendToEmail && identity == "" then Fail(Template(UserHasNotSetPhoneNumberAppCode))
      else if req.sendToEmail then
        match MaskEmail(identity)
        case None => Crash("slice bounds out of range")
        case Some(m) => Ok((identity, AuthMethodOtpGetResponse("", m)))
      else
        match MaskPhone(identity)
        case None => Crash("slice bounds out of range")
        case Some(m) => Ok((identity, AuthMethodOtpGetResponse(m, "")))
  }

  /** Asking for a code by mail for an account that has only a phone masks the phone as an email, which panics. */
  lemma MailToPhoneOnlyAccountPanics(req: AuthMethodOtpGetRequest, row: Row, cap: Outcome<()>)
    requires req.otpType != SignupOtpType && req.sendToEmail
    requires !row.isDeleted && row.GetEmail() == "" && row.GetPhoneNumber() != "" && '@' !in row.GetPhoneNumber()
    ensures OtpTarget(req, Relational.Fetch(AdminModel, Some(row), false), cap).Crash?
  {
  }

  /**
   * The checks as evidently intended: the contact checked for presence and
   * masked is the one on the channel the caller chose. The code is still
   * stored under the account's email if set, else its phone.
   */
  function OtpTargetCorrected(req: AuthMethodOtpGetRequest, f: Relational.Fetch, cap: Outcome<()>): (r: Outcome<(string, AuthMethodOtpGetResponse)>)
    ensures req.otpType == SignupOtpType || f.isDeleted || f.user.None? ==> r == OtpTarget(req, f, cap)
    ensures r.Ok? && req.otpType != SignupOtpType ==> f.user.Some? && r.value.0 == AccountIdentity(f.user.value)
    ensures req.otpType != SignupOtpType && !f.isDeleted && f.user.Some? && ChosenIdentity(f.user.value, req.sendToEmail) == "" ==>
              r == Fail(Template(if req.sendToEmail then UserHasNotSetEmailAppCode else UserHasNotSetPhoneNumberAppCode))
    ensures r.Ok? && req.otpType != SignupOtpType && req.sendToEmail ==>
              Some(r.value.1.maskedEmail) == MaskEmail(f.user.value.GetEmail()) && r.value.1.maskedPhone == ""
    ensures r.Ok? && req.otpType != SignupOtpType && !req.sendToEmail ==>
              Some(r.value.1.maskedPhone) == MaskPhone(f.user.value.GetPhoneNumber()) && r.value.1.maskedEmail == ""
  {
    if req.otpType == SignupOtpType || f.isDeleted || f.user.None? then OtpTarget(req, f, cap)
    else
      var row := f.user.value;
      var contact := ChosenIdentity(row, req.sendToEmail);
      if req.sendToEmail && contact == "" then Fail(Template(UserHasNotSetEmailAppCode))
      else if !req.sendToEmail && contact == "" then Fail(Template(UserHasNotSetPhoneNumberAppCode))
      else if req.sendToEmail then
        match MaskEmail(contact)
        case None => Crash("slice bounds out of range")
        case Some(m) => Ok((AccountIdentity(row), AuthMethodOtpGetResponse("", m)))
      else
        match MaskPhone(contact)
        case None => Crash("slice bounds out of range")
        case Some(m) => Ok((AccountIdentity(row), AuthMethodOtpGetResponse(m, "")))
  }

  /** With the corrected checks, the phone-only account that made the mail path panic is refused instead. */
  lemma MailToPhoneOnlyAccountRefused(req: AuthMethodOtpGetRequest, k: Kind, row: Row, cap: Outcome<()>)
    requires req.otpType != SignupOtpType && req.sendToEmail
    requires !row.isDeleted && row.GetEmail() == "" && row.GetPhoneNumber() != ""
    ensures OtpTargetCorrected(req, Relational.Fetch(k, Some(row), false), cap) == Fail(Template(UserHasNotSetEmailAppCode))
  {
  }

  /**
   * As evidently intended: a code for an account is texted to the account's
   * own number; a signup code still goes to the number being signed up.
   */
  function SmsRecipientsCorrected(req: AuthMethodOtpGetRequest, f: Relational.Fetch): (to: seq<string>)
    ensures req.otpType != SignupOtpType && f.user.Some? ==> to == [f.user.value.GetPhoneNumber()]
    ensures req.otpType == SignupOtpType ==> to == [req.phoneNumber]
  {
    if req.otpType == SignupOtpType || f.user.None? then [req.phoneNumber] else [f.user.value.GetPhoneNumber()]
  }

  /**
   * As evidently intended: a signup code is mailed to the email being
   * signed up, any other code to the account's email; no recipient is read
   * from a missing account.
   */
  function MailRecipientCorrected(req: AuthMethodOtpGetRequest, f: Relational.Fetch): (to: seq<string>)
    ensures req.otpType != SignupOtpType && f.user.Some? ==> to == [f.user.value.GetEmail()]
    ensures f.user.None? ==> to == [req.email]
  {
    if f.user.None? then [req.email] else [f.user.value.GetEmail()]
  }

  /**
   * With the corrected recipients, a code that passes the checks reaches
   * the very contact it is stored under, whenever that contact is on the
   * channel the caller chose.
   */
  lemma CorrectedRecipientsHoldTheCode(req: AuthMethodOtpGetRequest, f: Relational.Fetch, cap: Outcome<()>)
    requires OtpTarget(req, f, cap).Ok?
    requires req.otpType == SignupOtpType ==> (req.sendToEmail <==> req.email != "")
    requires req.otpType != SignupOtpType ==> (req.sendToEmail <==> f.user.value.GetEmail() != "")
    ensures req.sendToEmail ==> MailRecipientCorrected(req, f) == [OtpTarget(req, f, cap).value.0]
    ensures !req.sendToEmail ==> SmsRecipientsCorrected(req, f) == [OtpTarget(req, f, cap).value.0]
  {
  }

  /** The TTLs, in seconds: two minutes for a code, 48 hours for an admin key. */
  const OtpTtl: int := 2 * 60
  const KeyTtl: int := 48 * 60 * 60

  /** SendOtp's response: nil on the SMS path, the masked contact only by mail. */
  function OtpReply(req: AuthMethodOtpGetRequest, resp: AuthMethodOtpGetResponse): (r: Option<AuthMethodOtpGetResponse>)
    ensures r.Some? <==> req.sendToEmail
    ensures r.Some? ==> r.value == resp
  {
    if req.sendToEmail then Some(resp) else None
  }

  /** SendKey's SMS as written: the bare template, whose `%s` is never filled. */
  function KeySmsAsWritten(key: string): (m: string)
    ensures m == OtpMessage(AdminSignupKeyOtpType)
  {
    OtpMessage(AdminSignupKeyOtpType)
  }

  /** Every key gets the same SMS, so the invitee never learns the key. */
  lemma KeySmsLacksKey(k1: string, k2: string)
    ensures KeySmsAsWritten(k1) == KeySmsAsWritten(k2)
    ensures KeySmsAsWritten(k1) == OtpMessageHeader + OtpCaption(AdminSignupKeyOtpType) + "%s"
  {
    TemplateShape(AdminSignupKeyOtpType);
  }

  /** As evidently intended: the key is filled into the template like a code. */
  function KeySms(key: string): (m: string)
    ensures m == OtpMessageHeader + OtpCaption(AdminSignupKeyOtpType) + key
  {
    OtpMessagesCarryCode(AdminSignupKeyOtpType, key);
    Sprintf1(OtpMessage(AdminSignupKeyOtpType), key)
  }

  /**
   * A code SendOtp stores for an account is the code SigninPost and
   * ResetPasswordPost find, until it expires, when they name the channel of
   * the contact it is stored under: the email if the account has one, else
   * the phone. Otherwise see PhoneSigninMissesEmailCode.
   */
  lemma {:induction false} IssuedCodeIsChecked(req: AuthMethodOtpGetRequest, k: Kind, row: Row, cap: Outcome<()>, sentToEmail: bool,
                                             entries: map<string, Cache.Entry>, code: string, now: int, later: int)
    requires req.otpType != SignupOtpType
    requires OtpTarget(req, Relational.Fetch(k, Some(row), false), cap).Ok?
    requires sentToEmail <==> row.GetEmail() != ""
    requires now <= later < now + OtpTtl
    ensures var t := OtpTarget(req, Relational.Fetch(k, Some(row), false), cap);
            Cache.GetAt(entries[Cache.OtpTokenKey(t.value.0, req.userType, req.otpType) := Cache.Expiring(code, OtpTtl, now)],
                        Cache.OtpTokenKey(ChosenIdentity(row, sentToEmail), req.userType, req.otpType), later) == code
  {
    var t := OtpTarget(req, Relational.Fetch(k, Some(row), false), cap);
    assert t.value.0 == AccountIdentity(row) == ChosenIdentity(row, sentToEmail);
    Cache.SetThenGet(entries, Cache.OtpTokenKey(t.value.0, req.userType, req.otpType), code, OtpTtl, now, later);
  }

  /** `j` is the pair minted at `now` for `u`: the refresh claims, and the access claims embedding that refresh token. */
  ghost predicate MintedPair(claims: map<string, Claims>, j: Jwt, u: User, now: int, accessMinutes: int, refreshMinutes: int)
  {
    j.accessExpires == accessMinutes && j.refreshExpires == refreshMinutes
    && j.refreshToken in claims && claims[j.refreshToken] == RefreshClaims(u, now + refreshMinutes * 60)
    && j.accessToken in claims && claims[j.accessToken] == AccessClaims(u, now + accessMinutes * 60, j.refreshToken)
  }

  class Auth {
    const cache: Cache.Cache
    const rel: Relational.Relational
    const s3: ObjectStore
    const outbox: Outbox
    const signer: Signer
    const clock: Clock
    /** JWT_ACCESS_EXP and JWT_REFRESH_EXP, in minutes. */
    const accessMinutes: int
    const refreshMinutes: int

    /** The stores share the service's clock. */
    predicate Wired()
    {
      cache.clock == clock && rel.clock == clock
    }

    /** ... and keep their own invariants. */
    ghost predicate Valid()
      reads rel, signer
    {
      Wired() && rel.Valid() && signer.Valid()
    }

    constructor (cache: Cache.Cache, rel: Relational.Relational, s3: ObjectStore, outbox: Outbox,
                 signer: Signer, accessMinutes: int, refreshMinutes: int)
      requires cache.clock == rel.clock && rel.Valid() && signer.Valid()
      ensures Valid() && this.clock == cache.clock
      ensures this.cache == cache && this.rel == rel && this.s3 == s3 && this.outbox == outbox && this.signer == signer
      ensures this.accessMinutes == accessMinutes && this.refreshMinutes == refreshMinutes
    {
      this.cache := cache;
      this.rel := rel;
      this.s3 := s3;
      this.outbox := outbox;
      this.signer := signer;
      this.clock := cache.clock;
      this.accessMinutes := accessMinutes;
      this.refreshMinutes := refreshMinutes;
    }

    /** The code the cache holds now for (identity, userType, otpType). */
    function CodeFor(identity: string, otpType: OtpType, userType: UserType): string
      reads cache, cache.clock
    {
      cache.Get(Cache.OtpTokenKey(identity, userType, otpType))
    }

    /** The login holds a pair this signer minted for its user just now, with the configured lifetimes. */
    ghost predicate Minted(login: Login)
      reads login, signer, clock
    {
      login.jwt.Some? && MintedPair(signer.claimsOf, login.jwt.value, login.user, clock.now, accessMinutes, refreshMinutes)
    }

    /**
     * GenerateToken: signs the refresh claims, then the access claims that
     * embed the refresh token, both expiring the configured number of
     * minutes from now, and stores the pair in the login.
     */
    method GenerateToken(login: Login)
      requires signer.Valid()
      modifies login, signer
      ensures signer.Valid() && login.user == old(login.user)
      ensures Minted(login) && Extends(old(signer.claimsOf), signer.claimsOf)
    {
      var rc := RefreshClaims(login.user, clock.now + refreshMinutes * 60);
      var refresh := signer.Sign(rc);
      ghost var mid := signer.claimsOf;
      var ac := AccessClaims(login.user, clock.now + accessMinutes * 60, refresh);
      var access := signer.Sign(ac);
      ExtendsTransitive(old(signer.claimsOf), mid, signer.claimsOf);
      login.jwt := Some(Jwt(access, refresh, accessMinutes, refreshMinutes));
    }

    /** A new login for `user` holding a freshly minted pair. */
    method Issue(user: User) returns (login: Login)
      requires signer.Valid()
      modifies signer
      ensures signer.Valid() && fresh(login) && login.user == user
      ensures Minted(login) && Extends(old(signer.claimsOf), signer.claimsOf)
    {
      login := new Login(user);
      GenerateToken(login);
    }

    /** ParseToken: verification against the signer and the clock, then the claim checks. */
    method ParseToken(token: string, jwtType: JwtType) returns (r: Outcome<Login>)
      ensures var p := ParseClaims(token, signer.Verify(token, clock.now), jwtType);
              (p.Ok? <==> r.Ok?) && (p.Failed() ==> r == p.Forward())
              && (r.Ok? ==> fresh(r.value) && r.value.user == p.value.user && r.value.jwt == Some(p.value.jwt))
    {
      var p := ParseClaims(token, signer.Verify(token, clock.now), jwtType);
      if p.Failed() {
        return p.Forward();
      }
      var login := new Login(p.value.user);
      login.jwt := Some(p.value.jwt);
      return Ok(login);
    }

    method CheckPost(req: AuthCheckPostRequest) returns (r: Outcome<AuthCheckPostResponse>)
      requires rel.Valid()
      ensures req.userType in AllUserTypes && !rel.down ==>
                r == Ok(Relational.ExistsResponse(Relational.ByUsername(rel.Table(Relational.KindOf(req.userType)), req.username)).0)
      ensures req.userType !in AllUserTypes ==> r.Crash?
      ensures req.userType in AllUserTypes && rel.down ==>
                r == Fail(Relational.DbError(Relational.RelationalCaller + ".UserExists", Relational.ConnectionLost).WithCaller(AuthCaller + ".CheckPost"))
    {
      var e := rel.UserExists(req);
      if e.Failed() {
        return Pipe(AuthCaller + ".CheckPost", e.Forward());
      }
      return Ok(e.value.0);
    }

    method CheckById(id: Uuid, userType: UserType) returns (r: Outcome<(bool, bool)>)
      ensures userType in AllUserTypes && !rel.down ==>
                r == Ok((id in rel.Table(Relational.KindOf(userType)),
                         id in rel.Table(Relational.KindOf(userType)) && rel.Table(Relational.KindOf(userType))[id].isDeleted))
      ensures userType !in AllUserTypes ==> r == Crash("unknown userType")
      ensures userType in AllUserTypes && rel.down ==>
                r == Fail(Relational.DbError(Relational.RelationalCaller + ".UserExistsById", Relational.ConnectionLost).WithCaller(AuthCaller + ".CheckById"))
    {
      var e := rel.UserExistsById(id, userType);
      r := Pipe(AuthCaller + ".CheckById", e);
    }

    /**
     * LogoutPost: blacklists the access token for the access lifetime, then
     * the refresh token for the refresh lifetime; the second write is not
     * attempted when the first fails.
     */
    method LogoutPost(login: Login) returns (r: Outcome<()>)
      requires Wired()
      modifies cache
      ensures cache.failing == old(cache.failing)
      ensures login.jwt.None? ==> r.Crash? && cache.entries == old(cache.entries)
      ensures login.jwt.Some? && (Cache.SET, login.jwt.value.accessToken) in cache.failing ==>
                r.Fail? && r.err.callers != [] && r.err.callers[0] == AuthCaller + ".LogoutPost" && cache.entries == old(cache.entries)
      ensures login.jwt.Some? && (Cache.SET, login.jwt.value.accessToken) !in cache.failing && (Cache.SET, login.jwt.value.refreshToken) in cache.failing ==>
                r.Fail? && cache.entries == old(cache.entries)[login.jwt.value.accessToken := Cache.Expiring("true", accessMinutes * 60, clock.now)]
      ensures login.jwt.Some? && (Cache.SET, login.jwt.value.accessToken) !in cache.failing && (Cache.SET, login.jwt.value.refreshToken) !in cache.failing ==>
                r == Ok(()) && cache.entries == old(cache.entries)
                  [login.jwt.value.accessToken := Cache.Expiring("true", accessMinutes * 60, clock.now)]
                  [login.jwt.value.refreshToken := Cache.Expiring("true", refreshMinutes * 60, clock.now)]
    {
      if login.jwt.None? {
        return Crash("invalid memory address or nil dereference");
      }
      var a := cache.AddJwtToBlacklist(login.jwt.value.accessToken, accessMinutes * 60);
      if a.Failed() {
        return Pipe(AuthCaller + ".LogoutPost", a);
      }
      var b := cache.AddJwtToBlacklist(login.jwt.value.refreshToken, refreshMinutes * 60);
      r := Pipe(AuthCaller + ".LogoutPost", b);
    }

    /** RefreshPost: mints a fresh pair for the login's user and returns it. */
    method RefreshPost(login: Login) returns (r: Outcome<Jwt>)
      requires signer.Valid()
      modifies login, signer
      ensures signer.Valid() && login.user == old(login.user)
      ensures r.Ok? && login.jwt == Some(r.value) && Minted(login) && Extends(old(signer.claimsOf), signer.claimsOf)
    {
      GenerateToken(login);
      return Ok(login.jwt.value);
    }

    /**
     * The account a flow keyed on a username acts on, as GetUserByUsername
     * reports it, which hides a soft-deleted row. With `tellDeleted`
     * (ResetPasswordPost) a deleted row is reported as deleted; without it
     * (SigninPost, whose deleted check comes after the nil check and never
     * fires) it reads as missing.
     */
    ghost function AccountByName(username: string, userType: UserType, tellDeleted: bool): Outcome<(Kind, Row)>
      reads rel
    {
      if userType !in AllUserTypes then Crash("unknown userType")
      else if rel.down then Fail(Relational.DbError(Relational.RelationalCaller + ".GetUserByUsername", Relational.ConnectionLost))
      else
        var k := Relational.KindOf(userType);
        var row := Relational.ByUsername(rel.Table(k), username);
        if tellDeleted && row.Some? && row.value.isDeleted then Fail(Template(UserDeletedAppCode))
        else if row.None? || row.value.isDeleted then Fail(Template(UsernameNotFoundAppCode).WithReason("username", username))
        else Ok((k, row.value))
    }

    /** The named account, provided the code stored under the contact the caller chose is the one sent. */
    ghost function NamedSpend(username: string, userType: UserType, tellDeleted: bool, sentToEmail: bool,
                              otpType: OtpType, token: string): Outcome<(Kind, Row)>
      reads rel, cache, cache.clock
    {
      var a := AccountByName(username, userType, tellDeleted);
      if a.Failed() then a
      else
        var c := cache.CodeCheck(ChosenIdentity(a.value.1, sentToEmail), otpType, userType, token);
        if c.Failed() then c.Forward() else a
    }

    /** The account with this id, provided the code stored under its current phone (or email) is the one sent. */
    ghost function IdSpend(id: Uuid, userType: UserType, byPhone: bool, otpType: OtpType, token: string): Outcome<(Kind, Row)>
      reads rel, cache, cache.clock
    {
      var a := rel.AccountById(id, userType);
      if a.Failed() then a
      else
        var c := cache.CodeCheck(ContactOf(a.value.1, byPhone), otpType, userType, token);
        if c.Failed() then c.Forward() else a
    }

    /** GetUserByUsername followed by the flow's nil and deleted checks. */
    method LookupByName(username: string, userType: UserType, tellDeleted: bool) returns (r: Outcome<(Kind, Row)>)
      requires rel.Valid()
      ensures r == AccountByName(username, userType, tellDeleted)
      ensures r.Ok? ==> userType in AllUserTypes && !rel.down && r.value.0 == Relational.KindOf(userType)
                        && Relational.ByUsername(rel.Table(r.value.0), username) == Some(r.value.1) && !r.value.1.isDeleted
    {
      var f := rel.GetUserByUsername(username, userType);
      if f.Failed() { return f.Forward(); }
      if tellDeleted && f.value.isDeleted {
        return Fail(Template(UserDeletedAppCode));
      }
      if f.value.user.None? {
        return Fail(Template(UsernameNotFoundAppCode).WithReason("username", username));
      }
      return Ok((f.value.kind, f.value.user.value));
    }

    /** GetUserById followed by the deleted and nil checks of the reset flows. */
    method LookupById(id: Uuid, userType: UserType) returns (r: Outcome<(Kind, Row)>)
      requires rel.Valid()
      ensures r == rel.AccountById(id, userType)
      ensures r.Ok? ==> Found(userType, r.value.0, r.value.1) && r.value.1.id == id && !r.value.1.isDeleted
    {
      var f := rel.GetUserById(id, userType);
      if f.Failed() { return f.Forward(); }
      if f.value.isDeleted {
        return Fail(Template(UserDeletedAppCode));
      }
      if f.value.user.None? {
        return Fail(Template(UserNotFoundAppCode).WithReason("id", ToString(id)));
      }
      return Ok((f.value.kind, f.value.user.value));
    }

    /**
     * The step every code-guarded flow shares: read the code stored under
     * the key, compare it with the one sent, and delete it before anything
     * else happens. A DEL that fails after a matching GET is an internal
     * error, and the code stays stored and usable.
     */
    method ConsumeCode(identity: string, otpType: OtpType, userType: UserType, token: string) returns (r: Outcome<()>)
      modifies cache
      ensures cache.failing == old(cache.failing)
      ensures r == old(cache.CodeCheck(identity, otpType, userType, token))
      ensures cache.entries == if r.Ok? then old(cache.entries) - {Cache.OtpTokenKey(identity, userType, otpType)} else old(cache.entries)
      ensures var key := Cache.OtpTokenKey(identity, userType, otpType);
              (Cache.GET, key) !in cache.failing && old(cache.Get(key)) == token && (Cache.DEL, key) in cache.failing ==>
                r.Fail? && r.err.isInternal && cache.Get(key) == token
    {
      var stored := cache.GetOtpToken(identity, otpType, userType);
      if stored.Failed() { return stored.Forward(); }
      if stored.value != token { return Fail(Template(TokenIncorrectAppCode)); }
      r := cache.DeleteOtpToken(identity, otpType, userType);
    }

    /** Lookup by name, then the code for the chosen contact, consumed. */
    method SpendByName(username: string, userType: UserType, tellDeleted: bool, sentToEmail: bool,
                       otpType: OtpType, token: string) returns (r: Outcome<(Kind, Row)>)
      requires rel.Valid()
      modifies cache
      ensures cache.failing == old(cache.failing)
      ensures r == old(NamedSpend(username, userType, tellDeleted, sentToEmail, otpType, token))
      ensures cache.entries == if r.Ok? then old(cache.entries) - {Cache.OtpTokenKey(ChosenIdentity(r.value.1, sentToEmail), userType, otpType)}
                               else old(cache.entries)
      ensures r.Ok? ==> userType in AllUserTypes && !rel.down && r.value.0 == Relational.KindOf(userType)
                        && Relational.ByUsername(rel.Table(r.value.0), username) == Some(r.value.1) && !r.value.1.isDeleted
    {
      var a := LookupByName(username, userType, tellDeleted);
      if a.Failed() { return a; }
      var c := ConsumeCode(ChosenIdentity(a.value.1, sentToEmail), otpType, userType, token);
      if c.Failed() { return c.Forward(); }
      return a;
    }

    /** Lookup by id, then the code for the account's current contact, consumed. */
    method SpendById(id: Uuid, userType: UserType, byPhone: bool, otpType: OtpType, token: string) returns (r: Outcome<(Kind, Row)>)
      requires rel.Valid()
      modifies cache
      ensures cache.failing == old(cache.failing)
      ensures r == old(IdSpend(id, userType, byPhone, otpType, token))
      ensures cache.entries == if r.Ok? then old(cache.entries) - {Cache.OtpTokenKey(ContactOf(r.value.1, byPhone), userType, otpType)}
                               else old(cache.entries)
      ensures r.Ok? ==> Found(userType, r.value.0, r.value.1) && r.value.1.id == id && !r.value.1.isDeleted
    {
      var a := LookupById(id, userType);
      if a.Failed() { return a; }
      var c := ConsumeCode(ContactOf(a.value.1, byPhone), otpType, userType, token);
      if c.Failed() { return c.Forward(); }
      return a;
    }

    /**
     * SigninPost: the live account by username, then the sign-in code stored
     * under the contact the caller names, compared and consumed before any
     * token is minted.
     */
    method SigninPost(req: AuthSigninPostRequest) returns (r: Outcome<Login>)
      requires Wired() && rel.Valid() && signer.Valid()
      modifies cache, signer
      ensures signer.Valid() && cache.failing == old(cache.failing)
      ensures var s := old(NamedSpend(req.username, req.userType, false, req.sentToEmail, SigninOtpType, req.token));
        (s.Failed() ==> r == Pipe(AuthCaller + ".SigninPost", s.Forward()) && cache.entries == old(cache.entries) && unchanged(signer))
        && (s.Ok? ==> r.Ok? && fresh(r.value) && r.value.user == ToUserAsWritten(s.value.0, s.value.1) && Minted(r.value)
                      && Extends(old(signer.claimsOf), signer.claimsOf)
                      && cache.entries == old(cache.entries) - {Cache.OtpTokenKey(ChosenIdentity(s.value.1, req.sentToEmail), req.userType, SigninOtpType)})
    {
      var s := SpendByName(req.username, req.userType, false, req.sentToEmail, SigninOtpType, req.token);
      if s.Failed() { return Pipe(AuthCaller + ".SigninPost", s.Forward()); }
      var login := Issue(ToUserAsWritten(s.value.0, s.value.1));
      return Ok(login);
    }

    /** The admin invite key sent matches the one stored for the signup contact, which can be read and then deleted. */
    ghost predicate KeyMatches(req: AuthSignupPostRequest)
      reads cache, cache.clock
    {
      req.userType == AdminUserType && req.key != "" && (Cache.GET, SignupKeyKey(req)) !in cache.failing
      && cache.Get(SignupKeyKey(req)) == req.key && (Cache.DEL, SignupKeyKey(req)) !in cache.failing
    }

    /** What SignupPost decides from the cache: the admin key first, then the signup code. */
    ghost function SignupSecrets(req: AuthSignupPostRequest): Outcome<()>
      reads cache, cache.clock
    {
      if req.userType == AdminUserType && req.key == "" then Fail(Template(AuthSignupKeyIncorrectAppCode))
      else if req.userType == AdminUserType && (Cache.GET, SignupKeyKey(req)) in cache.failing then Fail(Cache.IoError(Cache.CacheCaller + ".GetOtpKey"))
      else if req.userType == AdminUserType && cache.Get(SignupKeyKey(req)) != req.key then Fail(Template(AuthSignupKeyIncorrectAppCode))
      else if req.userType == AdminUserType && (Cache.DEL, SignupKeyKey(req)) in cache.failing then Fail(Cache.IoError(Cache.CacheCaller + ".DeleteOtpKey"))
      else cache.CodeCheck(SignupIdentity(req.email, req.phoneNumber), SignupOtpType, req.userType, req.token)
    }

    /** The same as ConsumeCode for an admin sign-up key. */
    method ConsumeKey(req: AuthSignupPostRequest) returns (r: Outcome<()>)
      requires req.userType == AdminUserType && req.key != ""
      modifies cache
      ensures cache.failing == old(cache.failing)
      ensures r.Ok? <==> old(KeyMatches(req))
      ensures !r.Ok? ==> r == old(SignupSecrets(req)) && cache.entries == old(cache.entries)
      ensures r.Ok? ==> cache.entries == old(cache.entries) - {SignupKeyKey(req)}
    {
      var identity := SignupIdentity(req.email, req.phoneNumber);
      var stored := cache.GetOtpKey(identity, req.userType);
      if stored.Failed() { return stored.Forward(); }
      if stored.value != req.key { return Fail(Template(AuthSignupKeyIncorrectAppCode)); }
      r := cache.DeleteOtpKey(identity, req.userType);
    }

    /** SignupPost's spending of the admin key, if any, and then of the signup code. */
    method SpendSignupSecrets(req: AuthSignupPostRequest) returns (r: Outcome<()>)
      modifies cache
      ensures cache.failing == old(cache.failing)
      ensures r == old(SignupSecrets(req))
      ensures cache.entries == old(cache.entries) - (if old(KeyMatches(req)) then {SignupKeyKey(req)} else {})
                                                  - (if r.Ok? then {SignupCodeKey(req)} else {})
    {
      if req.userType == AdminUserType {
        if req.key == "" {
          return Fail(Template(AuthSignupKeyIncorrectAppCode));
        }
        Cache.CodesAndKeysSeparate(SignupIdentity(req.email, req.phoneNumber), req.userType, req.userType, SignupOtpType);
        var k := ConsumeKey(req);
        if k.Failed() { return k; }
      }
      r := ConsumeCode(SignupIdentity(req.email, req.phoneNumber), SignupOtpType, req.userType, req.token);
    }

    /** Everything SignupPost needs to insert the row: a valid avatar and what CreateUser needs. */
    ghost predicate Creatable(req: AuthSignupPostRequest, decoded: Option<ErrorValue>, id: Uuid)
      reads rel
    {
      AvatarValidator(req.avatar, decoded).Ok? && rel.CanCreate(req, id)
    }

    /**
     * SignupPost's second half: the avatar check, the insert, and the upload
     * when an avatar was sent. A failed upload leaves the row committed.
     */
    method CreateAccount(req: AuthSignupPostRequest, decoded: Option<ErrorValue>, freshId: Uuid, nonce: char)
      returns (r: Outcome<User>)
      requires rel.Valid()
      modifies rel, s3
      ensures rel.Valid() && rel.down == old(rel.down) && s3.down == old(s3.down)
      ensures AvatarValidator(req.avatar, decoded).Failed() ==> r == AvatarValidator(req.avatar, decoded).Forward()
      ensures !old(Creatable(req, decoded, freshId)) ==> !r.Ok? && unchanged(rel, s3)
      ensures old(Creatable(req, decoded, freshId)) ==>
        var k := Relational.KindOf(req.userType);
        var row := Relational.CreatedRow(req, freshId, rel.salt, nonce, rel.clock.now);
        rel.Table(k) == old(rel.Table(k))[freshId := row]
        && rel.Table(if k.AdminModel? then ClientModel else AdminModel) == old(rel.Table(if k.AdminModel? then ClientModel else AdminModel))
        && s3.objects == (if req.avatar != "" && !s3.down then old(s3.objects) + {AvatarObject(req.userType, freshId)} else old(s3.objects))
        && (r.Ok? <==> req.avatar == "" || !s3.down)
        && (r.Ok? ==> r.value == ToUserAsWritten(k, row))
    {
      var img := AvatarValidator(req.avatar, decoded);
      if img.Failed() { return img.Forward(); }
      var u := rel.CreateUser(req, None, freshId, nonce);
      if u.Failed() { return u.Forward(); }
      if img.value {
        var up := s3.UploadAvatar(u.value.id, req.userType);
        if up.Failed() { return up.Forward(); }
      }
      return u;
    }

    /**
     * SignupPost: an admin needs a non-empty invite key, which is spent
     * first; then the signup code is spent; only then are the avatar
     * checked, the row created, the avatar uploaded and a pair minted. A
     * failure after a spend leaves it spent.
     */
    method SignupPost(req: AuthSignupPostRequest, decoded: Option<ErrorValue>, freshId: Uuid, nonce: char)
      returns (r: Outcome<Login>)
      requires Wired() && rel.Valid() && signer.Valid()
      modifies cache, rel, s3, signer
      ensures rel.Valid() && signer.Valid() && cache.failing == old(cache.failing)
      ensures cache.entries == old(cache.entries) - (if old(KeyMatches(req)) then {SignupKeyKey(req)} else {})
                                                  - (if old(SignupSecrets(req)).Ok? then {SignupCodeKey(req)} else {})
      ensures old(SignupSecrets(req)).Failed() ==>
                r == Pipe(AuthCaller + ".SignupAdminPost", old(SignupSecrets(req)).Forward()) && unchanged(rel, s3, signer)
      ensures old(SignupSecrets(req)).Ok? && !old(Creatable(req, decoded, freshId)) ==> !r.Ok? && unchanged(rel, s3, signer)
      ensures old(SignupSecrets(req)).Ok? && old(Creatable(req, decoded, freshId)) ==>
        var k := Relational.KindOf(req.userType);
        var row := Relational.CreatedRow(req, freshId, rel.salt, nonce, clock.now);
        rel.Table(k) == old(rel.Table(k))[freshId := row]
        && (r.Ok? <==> req.avatar == "" || !s3.down)
        && (req.avatar != "" && r.Ok? ==> AvatarObject(req.userType, freshId) in s3.objects)
        && (r.Ok? ==> fresh(r.value) && r.value.user == ToUserAsWritten(k, row) && Minted(r.value)
                      && Extends(old(signer.claimsOf), signer.claimsOf))
    {
      var caller := AuthCaller + ".SignupAdminPost";
      var s := SpendSignupSecrets(req);
      if s.Failed() { return Pipe(caller, s.Forward()); }
      r := CreateAndIssue(req, decoded, freshId, nonce);
    }

    /** SignupPost after the secrets are spent: the account, then its first session. */
    method CreateAndIssue(req: AuthSignupPostRequest, decoded: Option<ErrorValue>, freshId: Uuid, nonce: char)
      returns (r: Outcome<Login>)
      requires rel.Valid() && signer.Valid()
      modifies rel, s3, signer
      ensures rel.Valid() && signer.Valid()
      ensures !old(Creatable(req, decoded, freshId)) ==> !r.Ok? && unchanged(rel, s3, signer)
      ensures old(Creatable(req, decoded, freshId)) ==>
        var k := Relational.KindOf(req.userType);
        var row := Relational.CreatedRow(req, freshId, rel.salt, nonce, rel.clock.now);
        rel.Table(k) == old(rel.Table(k))[freshId := row]
        && (r.Ok? <==> req.avatar == "" || !s3.down)
        && (req.avatar != "" && r.Ok? ==> AvatarObject(req.userType, freshId) in s3.objects)
        && (r.Ok? ==> fresh(r.value) && r.value.user == ToUserAsWritten(k, row) && Minted(r.value)
                      && Extends(old(signer.claimsOf), signer.claimsOf))
    {
      var u := CreateAccount(req, decoded, freshId, nonce);
      if u.Failed() { return Pipe(AuthCaller + ".SignupAdminPost", u.Forward()); }
      var login := Issue(u.value);
      return Ok(login);
    }


    /** What SigninPasswordPost decides from the user table: the user to log in, or why not. */
    ghost function PasswordSignin(req: AuthSigninPasswordPostRequest): (r: Outcome<User>)
      reads rel
      ensures r.Ok? ==> req.password != "" && req.userType in AllUserTypes && !rel.down
      ensures r.Ok? ==> var k := Relational.KindOf(req.userType);
                        var row := Relational.ByUsername(rel.Table(k), req.username);
                        row.Some? && !row.value.isDeleted && VerifyPassword(row.value.GetPassword(), req.password, rel.salt)
                        && r.value == ToUserAsWritten(k, row.value)
      ensures r.Crash? <==> req.userType !in AllUserTypes
    {
      if req.userType !in AllUserTypes then Crash("unknown userType")
      else if rel.down then Fail(Relational.DbError(Relational.RelationalCaller + ".GetUserByUsername", Relational.ConnectionLost))
      else
        var k := Relational.KindOf(req.userType);
        var row := Relational.ByUsername(rel.Table(k), req.username);
        if row.None? || row.value.isDeleted then Fail(Template(UsernameNotFoundAppCode).WithReason("username", req.username))
        else if !VerifyPassword(row.value.GetPassword(), req.password, rel.salt) then Fail(Template(PasswordIncorrectAppCode))
        else Ok(ToUserAsWritten(k, row.value))
    }

    /** SigninPasswordPost: a live account by username and a password that verifies against its hash. */
    method SigninPasswordPost(req: AuthSigninPasswordPostRequest) returns (r: Outcome<Login>)
      requires rel.Valid() && signer.Valid()
      modifies signer
      ensures signer.Valid()
      ensures var d := PasswordSignin(req);
        (d.Failed() ==> r == Pipe(AuthCaller + ".SigninPasswordPost", d.Forward()) && unchanged(signer))
        && (d.Ok? ==> r.Ok? && fresh(r.value) && r.value.user == d.value && Minted(r.value)
                      && Extends(old(signer.claimsOf), signer.claimsOf))
    {
      var d := CheckPassword(req);
      if d.Failed() { return Pipe(AuthCaller + ".SigninPasswordPost", d.Forward()); }
      var login := Issue(d.value);
      return Ok(login);
    }

    /** SigninPasswordPost's lookup and password check. */
    method CheckPassword(req: AuthSigninPasswordPostRequest) returns (r: Outcome<User>)
      requires rel.Valid()
      ensures r == PasswordSignin(req)
    {
      var f := rel.GetUserByUsername(req.username, req.userType);
      if f.Failed() { return f.Forward(); }
      if f.value.user.None? {
        return Fail(Template(UsernameNotFoundAppCode).WithReason("username", req.username));
      }
      var row := f.value.user.value;
      if !VerifyPassword(row.GetPassword(), req.password, rel.salt) {
        return Fail(Template(PasswordIncorrectAppCode));
      }
      return Ok(ToUserAsWritten(f.value.kind, row));
    }

    /**
     * ResetPasswordPost: unlike SigninPost it tells a deleted account apart;
     * the change-password code is spent before the password is rewritten,
     * and the new session carries the user as read before the update. When
     * the update's transaction fails, the code is spent all the same and
     * the password is unchanged.
     */
    method ResetPasswordPost(req: AuthResetPasswordPostRequest, nonce: char) returns (r: Outcome<Login>)
      requires Wired() && rel.Valid() && signer.Valid()
      modifies cache, rel, signer
      ensures rel.Valid() && signer.Valid() && cache.failing == old(cache.failing)
      ensures var s := old(NamedSpend(req.username, req.userType, true, req.sentToEmail, ChangePasswordOtpType, req.token));
        (s.Failed() ==> r == Pipe(AuthCaller + ".ResetPasswordPost", s.Forward()) && cache.entries == old(cache.entries) && unchanged(rel, signer))
        && (s.Ok? ==>
              var k := s.value.0;
              var row := s.value.1;
              cache.entries == old(cache.entries) - {Cache.OtpTokenKey(ChosenIdentity(row, req.sentToEmail), req.userType, ChangePasswordOtpType)}
              && (rel.txDown ==>
                    r == Fail(Relational.DbError(Relational.RelationalCaller + ".UpdateUserPasswordByUsername", Relational.ConnectionLost)
                                .WithCaller(AuthCaller + ".ResetPasswordPost"))
                    && unchanged(rel, signer))
              && (!rel.txDown ==>
                    rel.Table(k) == old(rel.Table(k))[row.id := row.(password := Some(HashPassword(req.password, rel.salt, nonce)), updatedAt := clock.now)]
                    && rel.Table(if k.AdminModel? then ClientModel else AdminModel) == old(rel.Table(if k.AdminModel? then ClientModel else AdminModel))
                    && r.Ok? && fresh(r.value) && r.value.user == ToUserAsWritten(k, row) && Minted(r.value)
                    && Extends(old(signer.claimsOf), signer.claimsOf)))
    {
      var s := SpendByName(req.username, req.userType, true, req.sentToEmail, ChangePasswordOtpType, req.token);
      if s.Failed() { return Pipe(AuthCaller + ".ResetPasswordPost", s.Forward()); }
      var w := RewriteAndIssue(req, nonce, s.value.0, s.value.1);
      r := Pipe(AuthCaller + ".ResetPasswordPost", w);
    }

    /**
     * ResetPasswordPost after the code is spent: the new hash, then a session
     * for the user as read. A failed update leaves the old hash and mints
     * nothing.
     */
    method RewriteAndIssue(req: AuthResetPasswordPostRequest, nonce: char, k: Kind, row: Row) returns (r: Outcome<Login>)
      requires rel.Valid() && signer.Valid()
      requires req.userType in AllUserTypes && k == Relational.KindOf(req.userType)
      requires Relational.ByUsername(rel.Table(k), req.username) == Some(row)
      modifies rel, signer
      ensures rel.Valid() && signer.Valid() && rel.txDown == old(rel.txDown)
      ensures rel.txDown ==>
                r == Fail(Relational.DbError(Relational.RelationalCaller + ".UpdateUserPasswordByUsername", Relational.ConnectionLost))
                && unchanged(rel, signer)
      ensures !rel.txDown ==>
              rel.Table(k) == old(rel.Table(k))[row.id := row.(password := Some(HashPassword(req.password, rel.salt, nonce)), updatedAt := rel.clock.now)]
              && rel.Table(if k.AdminModel? then ClientModel else AdminModel) == old(rel.Table(if k.AdminModel? then ClientModel else AdminModel))
              && r.Ok? && fresh(r.value) && r.value.user == ToUserAsWritten(k, row) && Minted(r.value)
              && Extends(old(signer.claimsOf), signer.claimsOf)
    {
      var u := RewritePassword(req, nonce, k, row);
      if u.Failed() { return u.Forward(); }
      var login := Issue(ToUserAsWritten(k, row));
      return Ok(login);
    }

    /**
     * UpdateUserPasswordByUsername on the account just read by that name: it
     * cannot miss the row, but its transaction can still fail at Begin.
     */
    method RewritePassword(req: AuthResetPasswordPostRequest, nonce: char, k: Kind, row: Row) returns (r: Outcome<()>)
      requires rel.Valid()
      requires req.userType in AllUserTypes && k == Relational.KindOf(req.userType)
      requires Relational.ByUsername(rel.Table(k), req.username) == Some(row)
      modifies rel
      ensures rel.Valid() && rel.txDown == old(rel.txDown)
      ensures rel.txDown ==>
                r == Fail(Relational.DbError(Relational.RelationalCaller + ".UpdateUserPasswordByUsername", Relational.ConnectionLost))
                && unchanged(rel)
      ensures !rel.txDown ==>
                r == Ok(())
                && rel.Table(k) == old(rel.Table(k))[row.id := row.(password := Some(HashPassword(req.password, rel.salt, nonce)), updatedAt := rel.clock.now)]
                && rel.Table(if k.AdminModel? then ClientModel else AdminModel) == old(rel.Table(if k.AdminModel? then ClientModel else AdminModel))
    {
      Relational.ByUsernameKey(rel.Table(k), req.username);
      r := rel.UpdateUserPasswordByUsername(req.username, req.userType, req.password, nonce);
    }

    /** The account the flow has just read: a live row of a known user type in a reachable database. */
    ghost predicate Found(userType: UserType, k: Kind, row: Row)
      reads rel
    {
      userType in AllUserTypes && !rel.down && k == Relational.KindOf(userType)
      && row.id in rel.Table(k) && rel.Table(k)[row.id] == row
    }

    /**
     * UpdateUserPhoneById on an account just found: its contact count names
     * no table, so the write fails with an internal error and the row keeps
     * its old number; a transaction that fails at Begin fails before that.
     */
    method WritePhone(userType: UserType, phoneNumber: string, ghost k: Kind, row: Row) returns (r: Outcome<()>)
      requires Found(userType, k, row)
      ensures r == Fail(Relational.DbError(Relational.RelationalCaller + ".UpdateUserPhoneById",
                                           if rel.txDown then Relational.ConnectionLost else Relational.TableNotSet))
    {
      r := rel.UpdateUserPhoneById(row.id, userType, phoneNumber);
    }

    /** UpdateUserEmailById on an account just found: the same over the email. */
    method WriteEmail(userType: UserType, email: string, ghost k: Kind, row: Row) returns (r: Outcome<()>)
      requires Found(userType, k, row)
      ensures r == Fail(Relational.DbError(Relational.RelationalCaller + ".UpdateUserEmailById",
                                           if rel.txDown then Relational.ConnectionLost else Relational.TableNotSet))
    {
      r := rel.UpdateUserEmailById(row.id, userType, email);
    }

    /**
     * ResetPhonePost: the change-phone code is stored under the phone the
     * account has now, and it is spent before the new number is written.
     * The write then fails (WritePhone), so a correct code is burnt and the
     * number never changes.
     */
    method ResetPhonePost(req: AuthResetPhonePostRequest) returns (r: Outcome<()>)
      requires Wired() && rel.Valid()
      modifies cache
      ensures cache.failing == old(cache.failing)
      ensures var s := old(IdSpend(req.id, req.userType, true, ChangePhoneOtpType, req.token));
        (s.Failed() ==> r == Pipe(AuthCaller + ".ResetPhonePost", s.Forward()) && cache.entries == old(cache.entries))
        && (s.Ok? ==>
              cache.entries == old(cache.entries) - {Cache.OtpTokenKey(s.value.1.GetPhoneNumber(), req.userType, ChangePhoneOtpType)}
              && r == Fail(Relational.DbError(Relational.RelationalCaller + ".UpdateUserPhoneById",
                                              if rel.txDown then Relational.ConnectionLost else Relational.TableNotSet)
                             .WithCaller(AuthCaller + ".ResetPhonePost")))
    {
      var s := SpendById(req.id, req.userType, true, ChangePhoneOtpType, req.token);
      if s.Failed() { return Pipe(AuthCaller + ".ResetPhonePost", s.Forward()); }
      var u := WritePhone(req.userType, req.phoneNumber, s.value.0, s.value.1);
      r := Pipe(AuthCaller + ".ResetPhonePost", u);
    }

    /** ResetEmailPost: the same over the email the account has now. */
    method ResetEmailPost(req: AuthResetEmailPostRequest) returns (r: Outcome<()>)
      requires Wired() && rel.Valid()
      modifies cache
      ensures cache.failing == old(cache.failing)
      ensures var s := old(IdSpend(req.id, req.userType, false, ChangeEmailOtpType, req.token));
        (s.Failed() ==> r == Pipe(AuthCaller + ".ResetEmailPost", s.Forward()) && cache.entries == old(cache.entries))
        && (s.Ok? ==>
              cache.entries == old(cache.entries) - {Cache.OtpTokenKey(s.value.1.GetEmail(), req.userType, ChangeEmailOtpType)}
              && r == Fail(Relational.DbError(Relational.RelationalCaller + ".UpdateUserEmailById",
                                              if rel.txDown then Relational.ConnectionLost else Relational.TableNotSet)
                             .WithCaller(AuthCaller + ".ResetEmailPost")))
    {
      var s := SpendById(req.id, req.userType, false, ChangeEmailOtpType, req.token);
      if s.Failed() { return Pipe(AuthCaller + ".ResetEmailPost", s.Forward()); }
      var u := WriteEmail(req.userType, req.email, s.value.0, s.value.1);
      r := Pipe(AuthCaller + ".ResetEmailPost", u);
    }

    /**
     * The contact cap SendKey and a signup code check: on the email when one
     * is given, else on the phone. As written it refuses every contact with
     * the internal error of the column it counted.
     */
    function ContactCap(email: string, phoneNumber: string): (r: Outcome<()>)
      ensures r.Fail? && r.err.isInternal
      ensures email != "" ==> r.err.callers == [Relational.RelationalCaller + ".CheckUserEmailLimit"]
      ensures email == "" ==> r.err.callers == [Relational.RelationalCaller + ".CheckUserPhoneLimit"]
    {
      if email != "" then Relational.ContactLimit(Relational.EmailColumn, email)
      else Relational.ContactLimit(Relational.PhoneColumn, phoneNumber)
    }

    /**
     * SendOtp's reads before the cache is touched: the lookup by name, then
     * the target checks, with the cap read only for a signup code. The
     * result carries the lookup, the identity to store the code under and
     * the masked contact.
     */
    ghost function OtpChecks(req: AuthMethodOtpGetRequest): (r: Outcome<(Relational.Fetch, string, AuthMethodOtpGetResponse)>)
      reads rel
      ensures r.Ok? ==> req.userType in AllUserTypes && !rel.down
                        && r.value.0 == Relational.Visible(Relational.KindOf(req.userType), Relational.ByUsername(rel.Table(Relational.KindOf(req.userType)), req.username))
      ensures r.Ok? && req.otpType != SignupOtpType ==>
                r.value.0.user.Some? && AccountByName(req.username, req.userType, false) == Ok((Relational.KindOf(req.userType), r.value.0.user.value))
                && r.value.1 == AccountIdentity(r.value.0.user.value)
    {
      if req.userType !in AllUserTypes then Crash("unknown userType")
      else if rel.down then Fail(Relational.DbError(Relational.RelationalCaller + ".GetUserByUsername", Relational.ConnectionLost))
      else
        var k := Relational.KindOf(req.userType);
        var f := Relational.Visible(k, Relational.ByUsername(rel.Table(k), req.username));
        var t := OtpTarget(req, f, ContactCap(req.email, req.phoneNumber));
        if t.Failed() then t.Forward() else Ok((f, t.value.0, t.value.1))
    }

    method CheckOtpTarget(req: AuthMethodOtpGetRequest) returns (r: Outcome<(Relational.Fetch, string, AuthMethodOtpGetResponse)>)
      requires rel.Valid()
      ensures r == OtpChecks(req)
    {
      var g := rel.GetUserByUsername(req.username, req.userType);
      if g.Failed() { return g.Forward(); }
      var f := g.value;
      var cap: Outcome<()> := Ok(());
      if !f.isDeleted && f.user.None? && req.otpType == SignupOtpType {
        if req.email != "" {
          cap := rel.CheckUserEmailLimit(req.email);
        } else {
          cap := rel.CheckUserPhoneLimit(req.phoneNumber);
        }
      }
      var t := OtpTarget(req, f, cap);
      if t.Failed() { return t.Forward(); }
      return Ok((f, t.value.0, t.value.1));
    }

    /**
     * SendOtp's cache steps: a code still live under the key refuses the
     * request; otherwise a fresh code is stored for two minutes. The SET may
     * fail even though the GET before it on the same key succeeded.
     */
    method StoreCode(identity: string, otpType: OtpType, userType: UserType, draw: nat) returns (r: Outcome<string>)
      requires draw <= 89999
      modifies cache
      ensures cache.failing == old(cache.failing)
      ensures var key := Cache.OtpTokenKey(identity, userType, otpType);
        ((Cache.GET, key) in cache.failing ==> r == Fail(Cache.IoError(Cache.CacheCaller + ".VerifyOtpToken")) && cache.entries == old(cache.entries))
        && ((Cache.GET, key) !in cache.failing && old(cache.Get(key)) != "" ==>
              r == Fail(Template(AuthMethodOtpGetTooEarlyAppCode)) && cache.entries == old(cache.entries))
        && ((Cache.GET, key) !in cache.failing && old(cache.Get(key)) == "" && (Cache.SET, key) in cache.failing ==>
              r == Fail(Cache.IoError(Cache.CacheCaller + ".SetOtpToken")) && cache.entries == old(cache.entries))
        && ((Cache.GET, key) !in cache.failing && old(cache.Get(key)) == "" && (Cache.SET, key) !in cache.failing ==>
              r == Ok(GenerateRandomOtp(draw)) && cache.entries == old(cache.entries)[key := Cache.Expiring(r.value, OtpTtl, cache.clock.now)])
    {
      var prev := cache.GetOtpToken(identity, otpType, userType);
      if prev.Failed() { return prev.Forward(); }
      if prev.value != "" { return Fail(Template(AuthMethodOtpGetTooEarlyAppCode)); }
      var code := GenerateRandomOtp(draw);
      var s := cache.SetOtpToken(identity, code, otpType, OtpTtl, userType);
      if s.Failed() { return s.Forward(); }
      return Ok(code);
    }

    /**
     * SendOtp's delivery as written: the SMS goes to the number in the
     * request, whatever account the code is stored for; the mail goes to the
     * looked-up account's email, read from a user that is nil for a signup
     * code; a type without a mail body (the recovery-email code) panics when
     * mailed.
     */
    method DeliverOtp(req: AuthMethodOtpGetRequest, f: Relational.Fetch, resp: AuthMethodOtpGetResponse, code: string)
      returns (r: Outcome<Option<AuthMethodOtpGetResponse>>)
      modifies outbox
      ensures outbox.smsDown == old(outbox.smsDown)
      ensures !req.sendToEmail ==>
                outbox.mails == old(outbox.mails)
                && (outbox.smsDown ==> r == Fail(TelecomError) && outbox.sms == old(outbox.sms))
                && (!outbox.smsDown ==>
                      r == Ok(None) && outbox.sms == old(outbox.sms) + [Sms([req.phoneNumber], Sprintf1(OtpMessage(req.otpType), code))])
      ensures req.sendToEmail ==>
                outbox.sms == old(outbox.sms)
                && (!HasMailBody(req.otpType) || f.user.None? ==> r.Crash? && outbox.mails == old(outbox.mails))
                && (HasMailBody(req.otpType) && f.user.Some? ==>
                      r == Ok(Some(resp))
                      && outbox.mails == old(outbox.mails) + [Mail([f.user.value.GetEmail()], SubjectOf(req.otpType), req.otpType, code)])
    {
      if !req.sendToEmail {
        var s := outbox.SendSms([req.phoneNumber], Sprintf1(OtpMessage(req.otpType), code));
        if s.Failed() { return s.Forward(); }
        return Ok(OtpReply(req, resp));
      }
      if !HasMailBody(req.otpType) {
        return Crash("invalid memory address or nil dereference");
      }
      if f.user.None? {
        return Crash("invalid memory address or nil pointer dereference");
      }
      outbox.SendMail([f.user.value.GetEmail()], SubjectOf(req.otpType), req.otpType, code);
      return Ok(OtpReply(req, resp));
    }

    /**
     * SendOtp: the checks, then the code is stored, then delivered. A failed
     * delivery leaves the code stored, so a retry within two minutes is
     * refused as too early.
     */
    method SendOtp(req: AuthMethodOtpGetRequest, draw: nat) returns (r: Outcome<Option<AuthMethodOtpGetResponse>>)
      requires rel.Valid() && draw <= 89999
      modifies cache, outbox
      ensures cache.failing == old(cache.failing) && outbox.smsDown == old(outbox.smsDown)
      ensures var c := old(OtpChecks(req));
        (c.Failed() ==> r == c.Forward() && cache.entries == old(cache.entries) && unchanged(outbox))
        && (c.Ok? ==>
              var key := Cache.OtpTokenKey(c.value.1, req.userType, req.otpType);
              ((Cache.GET, key) in cache.failing ==>
                    r == Fail(Cache.IoError(Cache.CacheCaller + ".VerifyOtpToken")) && cache.entries == old(cache.entries) && unchanged(outbox))
              && ((Cache.GET, key) !in cache.failing && old(cache.Get(key)) != "" ==>
                    r == Fail(Template(AuthMethodOtpGetTooEarlyAppCode)) && cache.entries == old(cache.entries) && unchanged(outbox))
              && ((Cache.GET, key) !in cache.failing && old(cache.Get(key)) == "" && (Cache.SET, key) in cache.failing ==>
                    r == Fail(Cache.IoError(Cache.CacheCaller + ".SetOtpToken")) && cache.entries == old(cache.entries) && unchanged(outbox))
              && ((Cache.GET, key) !in cache.failing && old(cache.Get(key)) == "" && (Cache.SET, key) !in cache.failing ==>
                    cache.entries == old(cache.entries)[key := Cache.Expiring(GenerateRandomOtp(draw), OtpTtl, cache.clock.now)]
                    && (!req.sendToEmail ==>
                          outbox.mails == old(outbox.mails)
                          && (outbox.smsDown ==> r == Fail(TelecomError) && outbox.sms == old(outbox.sms))
                          && (!outbox.smsDown ==>
                                r == Ok(None)
                                && outbox.sms == old(outbox.sms) + [Sms([req.phoneNumber], Sprintf1(OtpMessage(req.otpType), GenerateRandomOtp(draw)))]))
                    && (req.sendToEmail ==>
                          outbox.sms == old(outbox.sms)
                          && (!HasMailBody(req.otpType) || c.value.0.user.None? ==> r.Crash? && outbox.mails == old(outbox.mails))
                          && (HasMailBody(req.otpType) && c.value.0.user.Some? ==>
                                r == Ok(Some(c.value.2))
                                && outbox.mails == old(outbox.mails)
                                   + [Mail([c.value.0.user.value.GetEmail()], SubjectOf(req.otpType), req.otpType, GenerateRandomOtp(draw))]))))
    {
      var c := CheckOtpTarget(req);
      if c.Failed() { return c.Forward(); }
      var code := StoreCode(c.value.1, req.otpType, req.userType, draw);
      if code.Failed() { return code.Forward(); }
      r := DeliverOtp(req, c.value.0, c.value.2, code.value);
    }

    /** MethodOtpGet: SendOtp with this flow's caller tag. */
    method MethodOtpGet(req: AuthMethodOtpGetRequest, draw: nat) returns (r: Outcome<Option<AuthMethodOtpGetResponse>>)
      requires rel.Valid() && draw <= 89999
      modifies cache, outbox
      ensures cache.failing == old(cache.failing)
      ensures var c := old(OtpChecks(req));
        (c.Failed() ==> r == Pipe(AuthCaller + ".MethodOtpGet", c.Forward()) && cache.entries == old(cache.entries) && unchanged(outbox))
        && (c.Ok? && (Cache.GET, Cache.OtpTokenKey(c.value.1, req.userType, req.otpType)) !in cache.failing
            && (Cache.SET, Cache.OtpTokenKey(c.value.1, req.userType, req.otpType)) !in cache.failing
            && old(cache.Get(Cache.OtpTokenKey(c.value.1, req.userType, req.otpType))) == "" ==>
              cache.entries == old(cache.entries)[Cache.OtpTokenKey(c.value.1, req.userType, req.otpType)
                                                  := Cache.Expiring(GenerateRandomOtp(draw), OtpTtl, cache.clock.now)]
              && (!req.sendToEmail && !outbox.smsDown ==>
                    r == Ok(None) && outbox.sms == old(outbox.sms) + [Sms([req.phoneNumber], Sprintf1(OtpMessage(req.otpType), GenerateRandomOtp(draw)))]))
    {
      var o := SendOtp(req, draw);
      r := Pipe(AuthCaller + ".MethodOtpGet", o);
    }

    /**
     * A signup code is never issued: its contact cap is the table-less count,
     * which fails whether or not the database is up. So the mail path's nil
     * user (DeliverOtp) is never reached by a signup code.
     */
    lemma SignupCodeNeverIssued(req: AuthMethodOtpGetRequest)
      requires req.otpType == SignupOtpType
      ensures !OtpChecks(req).Ok?
      ensures req.userType in AllUserTypes && !rel.down && !Relational.ByUsername(rel.Table(Relational.KindOf(req.userType)), req.username).Some? ==>
                OtpChecks(req) == ContactCap(req.email, req.phoneNumber).Forward()
    {
    }

    /**
     * The takeover the SMS recipient allows: SendOtp for a sign-in code by
     * SMS, for the account named `req.username`, texts the code to whatever
     * number the request carries, and that code is the one SigninPost
     * accepts for the account (NamedSpend succeeds, so SigninPost logs in as
     * it) when it names the channel of the contact the code is stored under.
     */
    method SmsCodeTakeover(req: AuthMethodOtpGetRequest, draw: nat, sentToEmail: bool) returns (sent: Outcome<Option<AuthMethodOtpGetResponse>>)
      requires Wired() && rel.Valid() && draw <= 89999
      requires req.otpType == SigninOtpType && !req.sendToEmail
      requires AccountByName(req.username, req.userType, false).Ok? ==>
                 (sentToEmail <==> AccountByName(req.username, req.userType, false).value.1.GetEmail() != "")
      modifies cache, outbox
      ensures sent.Ok? ==>
                outbox.sms == old(outbox.sms) + [Sms([req.phoneNumber], Sprintf1(OtpMessage(SigninOtpType), GenerateRandomOtp(draw)))]
                && old(AccountByName(req.username, req.userType, false)).Ok?
                && var key := Cache.OtpTokenKey(ChosenIdentity(old(AccountByName(req.username, req.userType, false)).value.1, sentToEmail),
                                                req.userType, SigninOtpType);
                   cache.Get(key) == GenerateRandomOtp(draw)
                   && ((Cache.DEL, key) !in cache.failing ==>
                         NamedSpend(req.username, req.userType, false, sentToEmail, SigninOtpType, GenerateRandomOtp(draw))
                         == old(AccountByName(req.username, req.userType, false)))
    {
      ghost var c := OtpChecks(req);
      ghost var entries0 := cache.entries;
      sent := SendOtp(req, draw);
      if !sent.Ok? {
        return;
      }
      var code := GenerateRandomOtp(draw);
      assert c.Ok?;
      assert OtpChecks(req) == c;
      StoredSigninCodeSpends(req, sentToEmail, entries0, code);
    }

    /**
     * A sign-in code just stored under the contact OtpChecks picks reads back
     * under the contact the caller names, and NamedSpend accepts it for that
     * account unless the DEL that spends it fails.
     */
    lemma StoredSigninCodeSpends(req: AuthMethodOtpGetRequest, sentToEmail: bool, entries0: map<string, Cache.Entry>, code: string)
      requires Wired() && req.otpType == SigninOtpType && OtpChecks(req).Ok?
      requires sentToEmail <==> OtpChecks(req).value.0.user.value.GetEmail() != ""
      requires var key := Cache.OtpTokenKey(OtpChecks(req).value.1, req.userType, SigninOtpType);
               (Cache.GET, key) !in cache.failing && cache.entries == entries0[key := Cache.Expiring(code, OtpTtl, clock.now)]
      ensures var key := Cache.OtpTokenKey(ChosenIdentity(OtpChecks(req).value.0.user.value, sentToEmail), req.userType, SigninOtpType);
              cache.Get(key) == code
              && ((Cache.DEL, key) !in cache.failing ==>
                    NamedSpend(req.username, req.userType, false, sentToEmail, SigninOtpType, code)
                    == Ok((Relational.KindOf(req.userType), OtpChecks(req).value.0.user.value)))
    {
      var row := OtpChecks(req).value.0.user.value;
      var key := Cache.OtpTokenKey(OtpChecks(req).value.1, req.userType, SigninOtpType);
      assert OtpChecks(req).value.1 == AccountIdentity(row) == ChosenIdentity(row, sentToEmail);
      Cache.SetThenGet(entries0, key, code, OtpTtl, clock.now, clock.now);
    }

    /**
     * SendKey: the key is drawn, then the contact cap is checked; as written
     * the cap is the table-less count and never passes, so SendKey always
     * ends there with nothing stored or sent. StoreAndSendKey is what would
     * follow a passing cap.
     */
    method SendKey(req: AuthSignupKeyGetRequest, draws: seq<nat>) returns (r: Outcome<()>)
      requires KeyDraws(draws)
      ensures r == ContactCap(req.email, req.phoneNumber)
      ensures r.Fail? && r.err.isInternal
    {
      var key := GenerateRandomKey(draws);
      var cap;
      if req.email != "" {
        cap := rel.CheckUserEmailLimit(req.email);
      } else {
        cap := rel.CheckUserPhoneLimit(req.phoneNumber);
      }
      if cap.Failed() { return cap; }
      assert false;
    }

    /**
     * SendKey after its contact cap: the key is stored for 48 hours under the
     * signup contact, then mailed when an email is given, else texted as the
     * bare template, which never carries the key.
     */
    method StoreAndSendKey(req: AuthSignupKeyGetRequest, key: string) returns (r: Outcome<()>)
      modifies cache, outbox
      ensures cache.failing == old(cache.failing) && outbox.smsDown == old(outbox.smsDown)
      ensures var kk := Cache.OtpKeyKey(SignupIdentity(req.email, req.phoneNumber), req.userType);
        ((Cache.SET, kk) in cache.failing ==>
              r == Fail(Cache.IoError(Cache.CacheCaller + ".SetOtpKey")) && cache.entries == old(cache.entries) && unchanged(outbox))
        && ((Cache.SET, kk) !in cache.failing ==>
              cache.entries == old(cache.entries)[kk := Cache.Expiring(key, KeyTtl, cache.clock.now)]
              && (req.email != "" ==>
                    r == Ok(()) && outbox.sms == old(outbox.sms)
                    && outbox.mails == old(outbox.mails) + [Mail([req.email], SubjectOf(AdminSignupKeyOtpType), AdminSignupKeyOtpType, key)])
              && (req.email == "" ==>
                    outbox.mails == old(outbox.mails)
                    && (outbox.smsDown ==> r == Fail(TelecomError) && outbox.sms == old(outbox.sms))
                    && (!outbox.smsDown ==> r == Ok(()) && outbox.sms == old(outbox.sms) + [Sms([req.phoneNumber], KeySmsAsWritten(key))])))
    {
      var s := cache.SetOtpKey(SignupIdentity(req.email, req.phoneNumber), key, KeyTtl, req.userType);
      if s.Failed() { return s; }
      if req.email != "" {
        outbox.SendMail([req.email], SubjectOf(AdminSignupKeyOtpType), AdminSignupKeyOtpType, key);
        return Ok(());
      }
      r := outbox.SendSms([req.phoneNumber], KeySmsAsWritten(key));
    }

    /** SignupKeyGet: SendKey with this flow's caller tag; it never succeeds as written. */
    method SignupKeyGet(req: AuthSignupKeyGetRequest, draws: seq<nat>) returns (r: Outcome<()>)
      requires KeyDraws(draws)
      ensures r == Pipe(AuthCaller + ".SignupKeyGet", ContactCap(req.email, req.phoneNumber))
      ensures r.Fail? && r.err.callers == [AuthCaller + ".SignupKeyGet"] + ContactCap(req.email, req.phoneNumber).err.callers
    {
      var s := SendKey(req, draws);
      r := Pipe(AuthCaller + ".SignupKeyGet", s);
    }

    /** TmpSignupKeyGet: reads the key stored for the signup contact back. */
    method TmpSignupKeyGet(req: AuthSignupKeyGetRequest) returns (r: Outcome<string>)
      ensures var kk := Cache.OtpKeyKey(SignupIdentity(req.email, req.phoneNumber), req.userType);
        ((Cache.GET, kk) in cache.failing ==> r == Fail(Cache.IoError(Cache.CacheCaller + ".GetOtpKey").WithCaller(AuthCaller + ".TmpSignupKeyGet")))
        && ((Cache.GET, kk) !in cache.failing ==> r == Ok(cache.Get(kk)))
    {
      var k := cache.GetOtpKey(SignupIdentity(req.email, req.phoneNumber), req.userType);
      r := Pipe(AuthCaller + ".TmpSignupKeyGet", k);
    }

    /**
     * What TmpMethodOtpGet reads: the code stored under the contact the
     * caller names, for a live account found by name.
     */
    ghost function StoredCode(req: AuthMethodOtpGetRequest): Outcome<string>
      reads rel, cache, cache.clock
    {
      if req.userType !in AllUserTypes then Crash("unknown userType")
      else if rel.down then Fail(Relational.DbError(Relational.RelationalCaller + ".GetUserByUsername", Relational.ConnectionLost))
      else
        var row := Relational.ByUsername(rel.Table(Relational.KindOf(req.userType)), req.username);
        if row.None? || row.value.isDeleted then Fail(Template(UsernameNotFoundAppCode))
        else if req.sendToEmail && row.value.GetEmail() == "" then
          Fail(Template(UserHasNotSetEmailAppCode).WithReason("username", req.username))
        else
          var key := Cache.OtpTokenKey(ChosenIdentity(row.value, req.sendToEmail), req.userType, req.otpType);
          if (Cache.GET, key) in cache.failing then Fail(Cache.IoError(Cache.CacheCaller + ".VerifyOtpToken"))
          else Ok(cache.Get(key))
    }

    method TmpMethodOtpGet(req: AuthMethodOtpGetRequest) returns (r: Outcome<string>)
      requires rel.Valid()
      ensures r == Pipe(AuthCaller + ".TmpMethodOtpGet", StoredCode(req))
    {
      var caller := AuthCaller + ".TmpMethodOtpGet";
      var g := rel.GetUserByUsername(req.username, req.userType);
      if g.Failed() { return Pipe(caller, g.Forward()); }
      if g.value.user.None? { return Pipe(caller, Fail(Template(UsernameNotFoundAppCode))); }
      var row := g.value.user.value;
      var t;
      if req.sendToEmail {
        if row.GetEmail() == "" {
          return Pipe(caller, Fail(Template(UserHasNotSetEmailAppCode).WithReason("username", req.username)));
        }
        t := cache.GetOtpToken(row.GetEmail(), req.otpType, req.userType);
      } else {
        t := cache.GetOtpToken(row.GetPhoneNumber(), req.otpType, req.userType);
      }
      r := Pipe(caller, t);
    }
  }

  /** A minted access token parses back to its user and refresh token until it expires, and not after. */
  lemma MintedAccessParses(s: Signer, t: string, u: User, exp: int, refresh: string, now: int)
    requires t in s.claimsOf && s.claimsOf[t] == AccessClaims(u, exp, refresh)
    ensures now < exp ==> ParseClaims(t, s.Verify(t, now), AccessJwtType) == Ok(Parsed(u.(avatar := ""), Jwt(t, refresh, 0, 0)))
    ensures now >= exp ==> ParseClaims(t, s.Verify(t, now), AccessJwtType) == Fail(Template(JwtUnauthorizedAppCode).WithCaller(ParseTokenCaller))
    ensures ParseClaims(t, s.Verify(t, now), RefreshJwtType).Fail?
  {
    if now < exp {
      AccessRoundTrip(u, exp, refresh, t);
    }
  }

  lemma MintedRefreshParses(s: Signer, t: string, u: User, exp: int, now: int)
    requires t in s.claimsOf && s.claimsOf[t] == RefreshClaims(u, exp)
    ensures now < exp ==> ParseClaims(t, s.Verify(t, now), RefreshJwtType) == Ok(Parsed(u.(avatar := ""), Jwt("", t, 0, 0)))
    ensures now >= exp ==> ParseClaims(t, s.Verify(t, now), RefreshJwtType).Fail?
    ensures ParseClaims(t, s.Verify(t, now), AccessJwtType).Fail?
  {
    if now < exp {
      RefreshRoundTrip(u, exp, t);
    }
  }

  /** Only tokens this service signed ever parse. */
  lemma ForgedTokensRejected(s: Signer, t: string, now: int, jwtType: JwtType)
    requires t !in s.claimsOf
    ensures ParseClaims(t, s.Verify(t, now), jwtType) == Fail(Template(JwtUnauthorizedAppCode).WithCaller(ParseTokenCaller))
  {
  }
}
