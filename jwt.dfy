/**
 * HS256 tokens as the auth service mints and parses them. The secret key is
 * modelled by a registry: a token verifies only if this service signed it,
 * and signing the same claims twice yields the same token, as HMAC does.
 */
module Jwts {
  import opened Wrappers
  import opened Errors
  import opened IoAuth
  import opened Uuids

  /** The claim set: `refresh_token` is present only in access tokens. */
  datatype Claims = Claims(
    id: string,
    username: string,
    name: string,
    userType: string,
    typ: string,
    exp: int,
    refreshToken: Option<string>)

  /** The refresh claims GenerateToken signs first. */
  function RefreshClaims(u: User, exp: int): (c: Claims)
    ensures c.typ == RefreshJwtType && c.refreshToken.None? && c.exp == exp
  {
    Claims(ToString(u.id), u.username, u.name, u.userType, RefreshJwtType, exp, None)
  }

  /** The access claims, which embed the refresh token just signed. */
  function AccessClaims(u: User, exp: int, refresh: string): (c: Claims)
    ensures c.typ == AccessJwtType && c.refreshToken == Some(refresh) && c.exp == exp
  {
    Claims(ToString(u.id), u.username, u.name, u.userType, AccessJwtType, exp, Some(refresh))
  }

  /** A run of `n` copies of 'x': the signer's fresh token strings. */
  function Run(n: nat): (s: string)
    ensures |s| == n
  {
    if n == 0 then "" else Run(n - 1) + "x"
  }

  /** Signing only adds tokens: every token issued before still carries its claims. */
  ghost predicate Extends(before: map<string, Claims>, after: map<string, Claims>)
  {
    forall t :: t in before ==> t in after && after[t] == before[t]
  }

  lemma ExtendsTransitive(a: map<string, Claims>, b: map<string, Claims>, c: map<string, Claims>)
    requires Extends(a, b) && Extends(b, c)
    ensures Extends(a, c)
  {
  }

  class Signer {
    /** Every token signed so far and the claims it carries. */
    var claimsOf: map<string, Claims>
    /** The inverse: signing is deterministic. */
    var tokenOf: map<Claims, string>
    /** Tokens are at most this long; the next fresh one is one longer. */
    var count: nat

    ghost predicate Valid()
      reads this
    {
      (forall t :: t in claimsOf ==> |t| <= count && claimsOf[t] in tokenOf && tokenOf[claimsOf[t]] == t)
      && (forall c :: c in tokenOf ==> tokenOf[c] in claimsOf && claimsOf[tokenOf[c]] == c)
    }

    constructor ()
      ensures Valid() && claimsOf == map[] && tokenOf == map[]
    {
      claimsOf := map[];
      tokenOf := map[];
      count := 0;
    }

    /** SignedString: the same claims give the same token, new claims a token never seen. */
    method Sign(c: Claims) returns (t: string)
      requires Valid()
      modifies this
      ensures Valid()
      ensures t in claimsOf && claimsOf[t] == c && tokenOf[c] == t && Extends(old(claimsOf), claimsOf)
      ensures c in old(tokenOf) ==> t == old(tokenOf)[c] && claimsOf == old(claimsOf) && tokenOf == old(tokenOf)
      ensures c !in old(tokenOf) ==>
                t !in old(claimsOf) && claimsOf == old(claimsOf)[t := c] && tokenOf == old(tokenOf)[c := t]
    {
      if c in tokenOf {
        return tokenOf[c];
      }
      count := count + 1;
      t := Run(count);
      claimsOf := claimsOf[t := c];
      tokenOf := tokenOf[c := t];
    }

    /**
     * ParseWithClaims' verdict: the claims when the signature is ours and the
     * `exp` claim is still in the future, None otherwise.
     */
    function Verify(token: string, now: int): (r: Option<Claims>)
      reads this
      ensures r.Some? <==> token in claimsOf && now < claimsOf[token].exp
      ensures r.Some? ==> r.value == claimsOf[token]
    {
      if token in claimsOf && now < claimsOf[token].exp then Some(claimsOf[token]) else None
    }
  }

  const ParseTokenCaller: string := "services.Auth.ParseToken"
  const InvalidUuid: string := "invalid UUID format"

  /** What ParseToken returns: the user the claims describe and the token pair it can rebuild. */
  datatype Parsed = Parsed(user: User, jwt: Jwt)

  /**
   * ParseToken after signature and expiry checks: a type mismatch reports
   * both types, a malformed id is an internal error, and an access token
   * without a refresh token is a failed type assertion.
   */
  function ParseClaims(token: string, verified: Option<Claims>, jwtType: JwtType): (r: Outcome<Parsed>)
    ensures verified.None? ==> r == Fail(Template(JwtUnauthorizedAppCode).WithCaller(ParseTokenCaller))
    ensures verified.Some? && verified.value.typ != jwtType ==>
              r == Fail(Template(JwtUnauthorizedAppCode).WithReason("type", verified.value.typ)
                        .WithReason("wanted_type", jwtType).WithCaller(ParseTokenCaller))
    ensures r.Ok? ==> verified.Some? && verified.value.typ == jwtType && Parse(verified.value.id) == Some(r.value.user.id)
    ensures r.Ok? ==> r.value.user == User(r.value.user.id, verified.value.username, verified.value.name, "", verified.value.userType)
    ensures r.Ok? && jwtType == AccessJwtType ==>
              verified.value.refreshToken.Some? && r.value.jwt == Jwt(token, verified.value.refreshToken.value, 0, 0)
    ensures r.Ok? && jwtType != AccessJwtType ==> r.value.jwt == Jwt("", token, 0, 0)
    ensures r.Crash? <==> verified.Some? && verified.value.typ == jwtType && Parse(verified.value.id).Some?
                          && jwtType == AccessJwtType && verified.value.refreshToken.None?
  {
    match verified
    case None => Fail(Template(JwtUnauthorizedAppCode).WithCaller(ParseTokenCaller))
    case Some(c) =>
      if c.typ != jwtType then
        Fail(Template(JwtUnauthorizedAppCode).WithReason("type", c.typ).WithReason("wanted_type", jwtType).WithCaller(ParseTokenCaller))
      else match Parse(c.id)
        case None => Fail(FuncPipe(ParseTokenCaller, Some(Plain(InvalidUuid))).value)
        case Some(id) =>
          var u := User(id, c.username, c.name, "", c.userType);
          if jwtType == AccessJwtType then
            match c.refreshToken
            case None => Crash("interface conversion: refresh_token is nil, not string")
            case Some(rt) => Ok(Parsed(u, Jwt(token, rt, 0, 0)))
          else Ok(Parsed(u, Jwt("", token, 0, 0)))
  }

  /** A token pair GenerateToken minted parses back to the user it was minted for, minus the avatar. */
  lemma AccessRoundTrip(u: User, exp: int, refresh: string, token: string)
    ensures ParseClaims(token, Some(AccessClaims(u, exp, refresh)), AccessJwtType)
            == Ok(Parsed(u.(avatar := ""), Jwt(token, refresh, 0, 0)))
  {
    ParseToString(u.id);
  }

  lemma RefreshRoundTrip(u: User, exp: int, token: string)
    ensures ParseClaims(token, Some(RefreshClaims(u, exp)), RefreshJwtType)
            == Ok(Parsed(u.(avatar := ""), Jwt("", token, 0, 0)))
  {
    ParseToString(u.id);
  }

  /** A refresh token is no access token and an access token is no refresh token. */
  lemma TypesIsolated(u: User, exp: int, refresh: string, token: string)
    ensures ParseClaims(token, Some(RefreshClaims(u, exp)), AccessJwtType).Fail?
    ensures ParseClaims(token, Some(RefreshClaims(u, exp)), AccessJwtType).err.appCode == JwtUnauthorizedAppCode
    ensures ParseClaims(token, Some(AccessClaims(u, exp, refresh)), RefreshJwtType).Fail?
    ensures ParseClaims(token, Some(AccessClaims(u, exp, refresh)), RefreshJwtType).err.appCode == JwtUnauthorizedAppCode
  {
    TemplatesAsDeclared(JwtUnauthorizedAppCode);
  }
}
