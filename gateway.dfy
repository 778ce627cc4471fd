/**
 * The gateway: the JWT gate in front of the authenticated routes (a bearer
 * header or a token in the URL), the identity it hands on to the handlers
 * and to the backend services, and the registration of every version-1
 * route with its rate limiter and middleware chain.
 */
module Gateway {
  import opened Wrappers
  import opened GoStrings
  import opened Errors
  import opened IoAuth
  import opened Uuids
  import opened Jwts
  import opened Server
  import opened Ratelimiter
  import Cache
  import Relational
  import AuthService

  const GatewayCaller: string := "gateway.GatewayServer"

  /** The refusal the gate answers with. */
  const Unauthorized: ErrorValue := Template(JwtUnauthorizedAppCode)

  /** AuthBearerMiddleware's token: the header with every "Bearer" removed, then trimmed. */
  function BearerToken(header: string): (t: string)
    ensures |t| <= |header|
    ensures t == [] || (t[0] !in UnicodeSpace && t[|t| - 1] !in UnicodeSpace)
  {
    TrimSpace(RemoveAll(header, "Bearer"))
  }

  /** A token with no "Bearer" inside and no white space at its ends comes through "Bearer <token>" intact. */
  lemma {:induction false} BearerRoundTrip(t: string)
    requires t != [] && Absent("Bearer", t)
    requires t[0] !in UnicodeSpace && t[|t| - 1] !in UnicodeSpace
    ensures BearerToken("Bearer " + t) == t
  {
    var h := "Bearer " + t;
    assert h[..6] == "Bearer" && h[6..] == " " + t;
    assert RemoveAll(h, "Bearer") == RemoveAll(" " + t, "Bearer");
    assert Absent("Bearer", " " + t) by {
      forall i | 0 <= i <= |" " + t|
        ensures !("Bearer" <= (" " + t)[i..])
      {
        if i > 0 {
          assert (" " + t)[i..] == t[i - 1..];
        }
      }
    }
    RemoveAllAbsent(" " + t, "Bearer");
    var right := TrimRight(" " + t, UnicodeSpace);
    assert right == " " + t;
    assert right[0] == ' ' && right[1] == t[0] && right[1..] == t;
    var left := TrimLeft(right, UnicodeSpace);
    assert left == t;
  }

  /** The request headers the gate sets for the backend services; X-User-Phone is not among them. */
  function GateHeaders(headers: map<string, string>, u: User): map<string, string>
  {
    headers["X-User-ID" := ToString(u.id)]["X-User-Username" := u.username]["X-User-UserType" := u.userType]
  }

  /** The locals the gate sets for the gateway's own handlers; "phone" is not among them. */
  function GateLocals(locals: map<string, Local>, p: Parsed): map<string, Local>
  {
    locals["login" := LoginLocal(p.user, p.jwt)]["id" := IdLocal(p.user.id)]
          ["username" := TextLocal(p.user.username)]["userType" := TypeLocal(p.user.userType)]
  }

  /**
   * Behind the gate, CanPass as written always panics on the phone local
   * the gate never sets, whatever the target; the corrected CanPass decides
   * on the id and user type alone.
   */
  lemma {:induction false} GatedCanPassPanics(locals: map<string, Local>, p: Parsed, targetId: Uuid)
    requires "phone" !in locals
    ensures CanPassAsWritten(GateLocals(locals, p), targetId, []).Crash?
    ensures CanPass(GateLocals(locals, p), targetId, []) ==
              if p.user.userType == AdminUserType || p.user.id == targetId then Ok(()) else Fail(Denied)
  {
    var l := GateLocals(locals, p);
    assert "phone" !in l;
    assert l["id"] == IdLocal(p.user.id) && l["userType"] == TypeLocal(p.user.userType);
  }

  /**
   * A request the gate passed on carries no X-User-Phone of the gateway's
   * making, so a backend's authMiddleware_ refuses it unless the client sent
   * one itself.
   */
  lemma {:induction false} ForwardedRequestLacksPhone(headers: map<string, string>, u: User)
    requires "X-User-Phone" !in headers
    ensures ForwardedIdentity(GateHeaders(headers, u)) == Fail(Template(BadRequestAppCode).WithReason("X-User-Phone", ""))
  {
    var h := GateHeaders(headers, u);
    ParseToString(u.id);
    assert Header(h, "X-User-ID") == ToString(u.id);
    assert "X-User-Phone" !in h;
  }

  /** With a phone header from the client, the backend accepts the gate's identity and takes the phone as sent. */
  lemma {:induction false} ForwardedIdentityWithClientPhone(headers: map<string, string>, u: User)
    requires Header(headers, "X-User-Phone") != "" && u.userType != ""
    ensures ForwardedIdentity(GateHeaders(headers, u)) == Ok((u.id, Header(headers, "X-User-Phone"), u.userType))
  {
    var h := GateHeaders(headers, u);
    ParseToString(u.id);
    assert Header(h, "X-User-ID") == ToString(u.id);
    assert Header(h, "X-User-Phone") == Header(headers, "X-User-Phone");
    assert Header(h, "X-User-UserType") == u.userType;
  }

  /** On a route limited by id, the gate's X-User-ID is the key: the limiter counts per account. */
  lemma {:induction false} GatedIdKey(route: Route, headers: map<string, string>, u: User)
    ensures KeyOf(OnId, route, GateHeaders(headers, u)) == Key(Prefix(route) + ToString(u.id))
  {
    var h := GateHeaders(headers, u);
    assert Header(h, "X-User-ID") == ToString(u.id);
  }

  /** Two passed requests share the id key of a route exactly when they are for the same account. */
  lemma {:induction false} GatedIdKeysSeparate(route: Route, h1: map<string, string>, h2: map<string, string>, u1: User, u2: User)
    ensures KeyOf(OnId, route, GateHeaders(h1, u1)) == KeyOf(OnId, route, GateHeaders(h2, u2)) <==> u1.id == u2.id
  {
    GatedIdKey(route, h1, u1);
    GatedIdKey(route, h2, u2);
    Ratelimiter.PrefixCancel(Prefix(route), ToString(u1.id), ToString(u2.id));
    ParseToString(u1.id);
    ParseToString(u2.id);
  }

  /** A route table entry: the arguments of one call to register. */
  datatype Handler =
    | AuthBearer(jwtType: JwtType, onlyAdmin: bool)
    | ContentType(accepted: seq<string>)
    | RateLimit(limiter: Limiter)
    | Endpoint(name: string)

  /** One route as the router holds it: method, router, path and the handlers in the order they run. */
  datatype Registration = Registration(verb: string, router: string, path: string, chain: seq<Handler>)

  datatype RouteSpec = RouteSpec(router: string, verb: string, path: string, handler: Handler,
                                 tokens: nat, interval: int, onIP: bool, onID: bool, hasAuth: bool,
                                 middlewares: seq<Handler>)

  /** The methods the router's switch knows. */
  const Methods: seq<string> := ["GET", "POST", "PUT", "DELETE", "OPTIONS", "PATCH"]

  /** The tokens a route's limiter gets: ten times the figure in the route table. */
  function Budget(tokens: nat): nat
  {
    tokens * 10
  }

  /**
   * The handler chain: with an auth middleware it runs first and the rate
   * limiter second; otherwise the limiter runs first. The other middlewares
   * follow in their order, and the handler comes last.
   */
  function Chain(hasAuth: bool, limit: Handler, middlewares: seq<Handler>, handler: Handler): seq<Handler>
    requires hasAuth ==> |middlewares| > 0
  {
    if hasAuth then [middlewares[0], limit] + middlewares[1..] + [handler]
    else [limit] + middlewares + [handler]
  }

  /** Every middleware and the limiter run before the handler; with an auth middleware, the limiter runs right after it. */
  lemma ChainOrder(hasAuth: bool, limit: Handler, middlewares: seq<Handler>, handler: Handler)
    requires hasAuth ==> |middlewares| > 0
    ensures var chain := Chain(hasAuth, limit, middlewares, handler);
            |chain| == |middlewares| + 2 && chain[|chain| - 1] == handler
            && (hasAuth ==> chain[0] == middlewares[0] && chain[1] == limit && chain[2..|chain| - 1] == middlewares[1..])
            && (!hasAuth ==> chain[0] == limit && chain[1..|chain| - 1] == middlewares)
  {
    var chain := Chain(hasAuth, limit, middlewares, handler);
    if hasAuth {
      assert chain[2..|chain| - 1] == middlewares[1..];
    } else {
      assert chain[1..|chain| - 1] == middlewares;
    }
  }

  function RouteOf(s: RouteSpec): Route
  {
    Route(s.router, s.verb, s.path)
  }

  /** register and the limiter's Handler go through without a fatal log line. */
  predicate Registrable(s: RouteSpec)
  {
    (s.hasAuth ==> |s.middlewares| > 0) && (s.onIP || s.onID) && s.verb in Methods
  }

  function Registered(s: RouteSpec): (r: Registration)
    requires Registrable(s)
  {
    var limit := RateLimit(Limiter(RouteOf(s), Budget(s.tokens), s.interval, KeyKindOf(s.onIP, s.onID).value));
    Registration(s.verb, s.router, s.path, Chain(s.hasAuth, limit, s.middlewares, s.handler))
  }

  predicate AllRegistrable(table: seq<RouteSpec>)
  {
    forall i :: 0 <= i < |table| ==> Registrable(table[i])
  }

  /** The registrations of the first n routes of a table, in order. */
  function RegisteredUpTo(table: seq<RouteSpec>, n: nat): (r: seq<Registration>)
    requires n <= |table| && forall i :: 0 <= i < n ==> Registrable(table[i])
    ensures |r| == n
  {
    if n == 0 then [] else RegisteredUpTo(table, n - 1) + [Registered(table[n - 1])]
  }

  function RegisteredAll(table: seq<RouteSpec>): (r: seq<Registration>)
    requires AllRegistrable(table)
    ensures |r| == |table|
  {
    RegisteredUpTo(table, |table|)
  }

  predicate DistinctRoutes(table: seq<RouteSpec>)
  {
    forall i, j :: 0 <= i < j < |table| ==> RouteOf(table[i]) != RouteOf(table[j])
  }

  class GatewayServer {
    const auth: AuthService.Auth
    const limiter: Registry
    /** What the router holds, in registration order. */
    var routes: seq<Registration>

    constructor (auth: AuthService.Auth, limiter: Registry)
      ensures this.auth == auth && this.limiter == limiter && routes == []
    {
      this.auth := auth;
      this.limiter := limiter;
      routes := [];
    }

    /**
     * What authMiddleware decides once the token has parsed: an admin-only
     * gate refuses other users; a blacklisted token is refused; and the
     * account must still exist and not be deleted.
     */
    ghost function Admission(token: string, u: User, onlyAdmin: bool): Outcome<()>
      reads auth.cache, auth.cache.clock, auth.rel
    {
      if onlyAdmin && u.userType != AdminUserType then Fail(Unauthorized)
      else if (Cache.GET, token) in auth.cache.failing then Fail(Cache.IoError(Cache.CacheCaller + ".IsJwtInBlacklist"))
      else if auth.cache.Live(token) then Fail(Unauthorized)
      else if u.userType !in AllUserTypes then Crash("unknown userType")
      else if auth.rel.down then
        Fail(Relational.DbError(Relational.RelationalCaller + ".UserExistsById", Relational.ConnectionLost)
             .WithCaller(AuthService.AuthCaller + ".CheckById"))
      else
        var t := auth.rel.Table(Relational.KindOf(u.userType));
        if u.id !in t || t[u.id].isDeleted then Fail(Unauthorized) else Ok(())
    }

    /** What authMiddleware decides for a token: a token is required, it must parse as one of the wanted type, and then Admission. */
    ghost function Verdict(token: string, jwtType: JwtType, onlyAdmin: bool): Outcome<Parsed>
      reads auth.signer, auth.clock, auth.cache, auth.cache.clock, auth.rel
    {
      if token == "" then Fail(Unauthorized)
      else
        var p := ParseClaims(token, auth.signer.Verify(token, auth.clock.now), jwtType);
        if p.Failed() then p
        else
          var a := Admission(token, p.value.user, onlyAdmin);
          if a.Failed() then a.Forward() else p
    }

    /** auth.ParseToken, with the login it returns read back as the user and token pair. */
    method Parse(token: string, jwtType: JwtType) returns (r: Outcome<Parsed>)
      ensures r == ParseClaims(token, auth.signer.Verify(token, auth.clock.now), jwtType)
    {
      var login := auth.ParseToken(token, jwtType);
      if login.Failed() {
        return login.Forward();
      }
      return Ok(Parsed(login.value.user, login.value.jwt.value));
    }

    /** The blacklist lookup and CheckById, in the gate's order. */
    method Admit(token: string, u: User, onlyAdmin: bool) returns (r: Outcome<()>)
      ensures r == Admission(token, u, onlyAdmin)
    {
      if onlyAdmin && u.userType != AdminUserType {
        return Fail(Unauthorized);
      }
      var isIn := auth.cache.IsJwtInBlacklist(token);
      if isIn.Failed() {
        return isIn.Forward();
      }
      if isIn.value {
        return Fail(Unauthorized);
      }
      var found := auth.CheckById(u.id, u.userType);
      if found.Failed() {
        return found.Forward();
      }
      if !found.value.0 || found.value.1 {
        return Fail(Unauthorized);
      }
      return Ok(());
    }

    /**
     * authMiddleware: on a pass the identity goes into the request headers
     * and the locals and the request moves on (Ok); on a refusal nothing is
     * set and the error is tagged with the middleware's name.
     */
    method Gate(c: Ctx, token: string, jwtType: JwtType, onlyAdmin: bool) returns (r: Outcome<()>)
      modifies c
      ensures var v := Verdict(token, jwtType, onlyAdmin);
              (v.Failed() ==> r == Pipe(GatewayCaller + ".authMiddleware", v.Forward<()>())
                              && c.headers == old(c.headers) && c.locals == old(c.locals))
              && (v.Ok? ==> r == Ok(()) && c.headers == GateHeaders(old(c.headers), v.value.user)
                            && c.locals == GateLocals(old(c.locals), v.value))
    {
      var caller := GatewayCaller + ".authMiddleware";
      if token == "" {
        return Fail(Unauthorized.WithCaller(caller));
      }
      var parsed := Parse(token, jwtType);
      if parsed.Failed() {
        return Pipe(caller, parsed.Forward());
      }
      var p := parsed.value;
      var a := Admit(token, p.user, onlyAdmin);
      if a.Failed() {
        return Pipe(caller, a);
      }
      c.headers := GateHeaders(c.headers, p.user);
      c.locals := GateLocals(c.locals, p);
      return Ok(());
    }

    /** AuthBearerMiddleware: an absent Authorization header is refused; otherwise the gate runs on the bearer token. */
    method AuthBearerMiddleware(c: Ctx, jwtType: JwtType, onlyAdmin: bool) returns (r: Outcome<()>)
      modifies c
      ensures var caller := GatewayCaller + ".AuthBearerMiddleware";
              var header := Header(old(c.headers), "Authorization");
              var v := Verdict(BearerToken(header), jwtType, onlyAdmin);
              (header == "" ==> r == Fail(Unauthorized.WithCaller(caller)) && c.headers == old(c.headers) && c.locals == old(c.locals))
              && (header != "" && v.Failed() ==>
                    r == Pipe(caller, Pipe(GatewayCaller + ".authMiddleware", v.Forward<()>()))
                    && c.headers == old(c.headers) && c.locals == old(c.locals))
              && (header != "" && v.Ok? ==>
                    r == Ok(()) && c.headers == GateHeaders(old(c.headers), v.value.user)
                    && c.locals == GateLocals(old(c.locals), v.value))
    {
      var caller := GatewayCaller + ".AuthBearerMiddleware";
      var header := c.Get("Authorization");
      if header == "" {
        return Fail(Unauthorized.WithCaller(caller));
      }
      var g := Gate(c, BearerToken(header), jwtType, onlyAdmin);
      r := Pipe(caller, g);
    }

    /** AuthUrlMiddleware: the gate on the token in the URL's jwt parameter. */
    method AuthUrlMiddleware(c: Ctx, jwtParam: string, jwtType: JwtType, onlyAdmin: bool) returns (r: Outcome<()>)
      modifies c
      ensures var v := Verdict(jwtParam, jwtType, onlyAdmin);
              (v.Failed() ==> r == Pipe(GatewayCaller + ".AuthUrlMiddleware", Pipe(GatewayCaller + ".authMiddleware", v.Forward<()>()))
                              && c.headers == old(c.headers) && c.locals == old(c.locals))
              && (v.Ok? ==> r == Ok(()) && c.headers == GateHeaders(old(c.headers), v.value.user)
                            && c.locals == GateLocals(old(c.locals), v.value))
    {
      var g := Gate(c, jwtParam, jwtType, onlyAdmin);
      r := Pipe(GatewayCaller + ".AuthUrlMiddleware", g);
    }

    /**
     * register: an authenticated route without middlewares is fatal; the
     * limiter's store is created (its Handler is fatal for a repeated route
     * or a route keyed on neither address nor id); the chain is built; and
     * a method outside the router's switch is fatal.
     */
    method Register(routerName: string, verb: string, path: string, handler: Handler, tokens: nat, interval: int,
                    onIP: bool, onID: bool, hasAuth: bool, middlewares: seq<Handler>) returns (r: Setup<()>)
      modifies this, limiter
      ensures var s := RouteSpec(routerName, verb, path, handler, tokens, interval, onIP, onID, hasAuth, middlewares);
              (r.Ready? <==> Registrable(s) && RouteOf(s) !in old(limiter.stores))
              && (r.Ready? ==> routes == old(routes) + [Registered(s)])
              && (!r.Ready? ==> routes == old(routes))
              && limiter.stores == if (hasAuth && |middlewares| == 0) || RouteOf(s) in old(limiter.stores) then old(limiter.stores)
                                   else old(limiter.stores)[RouteOf(s) := (Budget(tokens), interval)]
    {
      if hasAuth && |middlewares| == 0 {
        return Fatal("auth middleware is not set for: " + verb);
      }
      var budget := tokens * 10;
      var chain: seq<Handler> := [];
      var limit := limiter.Handler(routerName, verb, path, budget, interval, onIP, onID);
      if limit.Fatal? {
        return Fatal(limit.message);
      }
      if hasAuth {
        chain := chain + [middlewares[0]];
        chain := chain + [RateLimit(limit.value)];
        if |middlewares| > 1 {
          chain := chain + middlewares[1..];
        }
        chain := chain + [handler];
        assert chain == [middlewares[0], RateLimit(limit.value)] + middlewares[1..] + [handler];
      } else {
        chain := chain + [RateLimit(limit.value)];
        chain := chain + middlewares;
        chain := chain + [handler];
      }
      assert chain == Chain(hasAuth, RateLimit(limit.value), middlewares, handler);
      if verb !in Methods {
        return Fatal("method is not valid for: " + verb);
      }
      routes := routes + [Registration(verb, routerName, path, chain)];
      return Ready(());
    }

    /** Registers a table of routes in order, stopping at the first fatal line. */
    method RegisterAll(table: seq<RouteSpec>) returns (r: Setup<()>)
      modifies this, limiter
      ensures r.Ready? ==> AllRegistrable(table) && routes == old(routes) + RegisteredAll(table)
      ensures AllRegistrable(table) && DistinctRoutes(table) && (forall i :: 0 <= i < |table| ==> RouteOf(table[i]) !in old(limiter.stores))
              ==> r.Ready?
    {
      ghost var clean := AllRegistrable(table) && DistinctRoutes(table)
                         && (forall i :: 0 <= i < |table| ==> RouteOf(table[i]) !in old(limiter.stores));
      var i := 0;
      while i < |table|
        invariant 0 <= i <= |table|
        invariant forall j :: 0 <= j < i ==> Registrable(table[j])
        invariant routes == old(routes) + RegisteredUpTo(table, i)
        invariant clean ==> forall j :: i <= j < |table| ==> RouteOf(table[j]) !in limiter.stores
      {
        var s := table[i];
        var one := Register(s.router, s.verb, s.path, s.handler, s.tokens, s.interval, s.onIP, s.onID, s.hasAuth, s.middlewares);
        if one.Fatal? {
          return Fatal(one.message);
        }
        if clean {
          forall j | i < j < |table|
            ensures RouteOf(table[j]) !in limiter.stores
          {
            assert RouteOf(table[i]) != RouteOf(table[j]);
          }
        }
        i := i + 1;
      }
      return Ready(());
    }

    /** RegisterV1: every version-1 route, registered in the order of the table. */
    method RegisterV1() returns (r: Setup<()>)
      modifies this, limiter
      ensures (forall i :: 0 <= i < |V1Routes| ==> RouteOf(V1Routes[i]) !in old(limiter.stores)) ==>
                r.Ready? && routes == old(routes) + RegisteredAll(V1Routes)
    {
      V1RoutesRegistrable();
      V1RoutesDistinct();
      r := RegisterAll(V1Routes);
    }
  }

  /**
   * A token LogoutPost blacklisted (the entry it writes, with the lifetime
   * it was written for) is refused by every gate until that entry expires.
   */
  lemma LoggedOutTokenRefused(g: GatewayServer, token: string, jwtType: JwtType, onlyAdmin: bool, ttl: int, at: int)
    requires token in g.auth.cache.entries && g.auth.cache.entries[token] == Cache.Expiring("true", ttl, at)
    requires ttl <= 0 || g.auth.cache.clock.now < at + ttl
    ensures !g.Verdict(token, jwtType, onlyAdmin).Ok?
  {
  }

  /**
   * What a pass guarantees: the signer issued the token, it has the wanted
   * type and has not expired; an admin-only gate saw an admin; the token is
   * not blacklisted; and the account exists and is not deleted.
   */
  lemma GatePassSound(g: GatewayServer, token: string, jwtType: JwtType, onlyAdmin: bool)
    requires g.Verdict(token, jwtType, onlyAdmin).Ok?
    ensures var u := g.Verdict(token, jwtType, onlyAdmin).value.user;
            var t := g.auth.rel.Table(Relational.KindOf(u.userType));
            token != "" && token in g.auth.signer.claimsOf && g.auth.clock.now < g.auth.signer.claimsOf[token].exp
            && g.auth.signer.claimsOf[token].typ == jwtType
            && (onlyAdmin ==> u.userType == AdminUserType)
            && !g.auth.cache.Live(token) && (Cache.GET, token) !in g.auth.cache.failing
            && u.id in t && !t[u.id].isDeleted
  {
  }

  const Json: seq<string> := ["application/json"]

  /** The version-1 route table, in registration order; every limiter counts per minute. */
  const V1Routes: seq<RouteSpec> :=
    RootRoutes + VersionRoutes + AuthGetRoutes + AuthPostRoutes + UserGetRoutes + UserPutRoutes + UserDeleteRoutes

  const RootRoutes: seq<RouteSpec> := [
    RouteSpec("/", "GET", "/", Endpoint("redirectToLatestVersionHandler"), 20, 60, true, false, false, [])
  ]

  const VersionRoutes: seq<RouteSpec> := [
    RouteSpec("v1", "GET", "/", Endpoint("redirectToDocsHandler"), 20, 60, true, false, false, []),
    RouteSpec("v1", "GET", "/health", Endpoint("healthGetHandler"), 20, 60, true, false, false, []),
    RouteSpec("v1", "GET", "/docs/*", Endpoint("SwaggerUI"), 20, 60, true, false, false, []),
    RouteSpec("v1", "GET", "/s3/avatars/:userType/:objectName", Endpoint("s3AvatarsGetHandler"), 20, 60, true, false, false, [])
  ]

  const AuthGetRoutes: seq<RouteSpec> := [
    RouteSpec("auth", "GET", "/check", Endpoint("authCheckPostHandler"), 10, 60, true, false, false, []),
    RouteSpec("auth", "GET", "/tmp/signup/key", Endpoint("tmpAuthSignupKeyGetHandler"), 3, 60, false, true, true,
              [AuthBearer(AccessJwtType, true)]),
    RouteSpec("auth", "GET", "/signup/key", Endpoint("authSignupKeyGetHandler"), 3, 60, false, true, true,
              [AuthBearer(AccessJwtType, true)]),
    RouteSpec("auth", "GET", "/tmp/:otpType/otp", Endpoint("tmpAuthMethodOtpGetHandler"), 3, 60, true, false, false, []),
    RouteSpec("auth", "GET", "/:otpType/otp", Endpoint("authMethodOtpGetHandler"), 3, 60, true, false, false, [])
  ]

  const AuthPostRoutes: seq<RouteSpec> := [
    RouteSpec("auth", "POST", "/signup", Endpoint("authSignupPostHandler"), 10, 60, true, false, false, [ContentType(Json)]),
    RouteSpec("auth", "POST", "/signin", Endpoint("authSigninPostHandler"), 10, 60, true, false, false, [ContentType(Json)]),
    RouteSpec("auth", "POST", "/signin/password", Endpoint("authSigninPasswordPostHandler"), 10, 60, true, false, false,
              [ContentType(Json)]),
    RouteSpec("auth", "POST", "/logout", Endpoint("authLogoutPostHandler"), 10, 60, false, true, true,
              [AuthBearer(AccessJwtType, false)]),
    RouteSpec("auth", "POST", "/refresh", Endpoint("authRefreshPostHandler"), 10, 60, false, true, true,
              [AuthBearer(RefreshJwtType, false)]),
    RouteSpec("auth", "POST", "/reset-password", Endpoint("authResetPasswordPostHandler"), 5, 60, true, false, false,
              [ContentType(Json)]),
    RouteSpec("auth", "POST", "/reset-phone", Endpoint("authResetPhonePostHandler"), 5, 60, false, true, true,
              [AuthBearer(AccessJwtType, false), ContentType(Json)]),
    RouteSpec("auth", "POST", "/reset-email", Endpoint("authResetEmailPostHandler"), 5, 60, false, true, true,
              [AuthBearer(AccessJwtType, false), ContentType(Json)])
  ]

  const UserGetRoutes: seq<RouteSpec> := [
    RouteSpec("user", "GET", "/", Endpoint("userServiceProxyHandler"), 10, 60, false, true, true, [AuthBearer(AccessJwtType, false)])
  ]

  const UserPutRoutes: seq<RouteSpec> := [
    RouteSpec("user", "PUT", "/", Endpoint("userServiceProxyHandler"), 10, 60, false, true, true, [AuthBearer(AccessJwtType, false)])
  ]

  const UserDeleteRoutes: seq<RouteSpec> := [
    RouteSpec("user", "DELETE", "/", Endpoint("userServiceProxyHandler"), 10, 60, false, true, true, [AuthBearer(AccessJwtType, false)])
  ]

  /** Routes that all sit under one router and method. */
  predicate Under(table: seq<RouteSpec>, router: string, verb: string)
  {
    forall i :: 0 <= i < |table| ==> table[i].router == router && table[i].verb == verb
  }

  /** None of the routes sits under that router and method. */
  predicate Outside(table: seq<RouteSpec>, router: string, verb: string)
  {
    forall i :: 0 <= i < |table| ==> table[i].router != router || table[i].verb != verb
  }

  /** Appending a group under one router and method to routes outside it keeps the routes distinct. */
  lemma DistinctJoin(a: seq<RouteSpec>, b: seq<RouteSpec>, router: string, verb: string)
    requires DistinctRoutes(a) && DistinctRoutes(b) && Outside(a, router, verb) && Under(b, router, verb)
    ensures DistinctRoutes(a + b)
  {
    forall i, j | 0 <= i < j < |a + b|
      ensures RouteOf((a + b)[i]) != RouteOf((a + b)[j])
    {
      if j < |a| {
        assert (a + b)[i] == a[i] && (a + b)[j] == a[j];
      } else if i < |a| {
        assert (a + b)[i] == a[i] && (a + b)[j] == b[j - |a|];
      } else {
        assert (a + b)[i] == b[i - |a|] && (a + b)[j] == b[j - |a|];
      }
    }
  }

  /** Every version-1 route registers without a fatal line. */
  lemma V1RoutesRegistrable()
    ensures AllRegistrable(V1Routes)
  {
  }

  lemma VersionRoutesDistinct()
    ensures DistinctRoutes(VersionRoutes)
  {
  }

  lemma AuthGetRoutesDistinct()
    ensures DistinctRoutes(AuthGetRoutes)
  {
  }

  lemma AuthPostRoutesDistinct()
    ensures DistinctRoutes(AuthPostRoutes)
  {
  }

  lemma OutsideBeforeVersionRoutes()
    ensures Outside(RootRoutes, "v1", "GET")
  {
  }

  lemma OutsideBeforeAuthGetRoutes()
    ensures Outside(RootRoutes + VersionRoutes, "auth", "GET")
  {
  }

  lemma OutsideBeforeAuthPostRoutes()
    ensures Outside(RootRoutes + VersionRoutes + AuthGetRoutes, "auth", "POST")
  {
  }

  lemma OutsideBeforeUserGetRoutes()
    ensures Outside(RootRoutes + VersionRoutes + AuthGetRoutes + AuthPostRoutes, "user", "GET")
  {
  }

  lemma OutsideBeforeUserPutRoutes()
    ensures Outside(RootRoutes + VersionRoutes + AuthGetRoutes + AuthPostRoutes + UserGetRoutes, "user", "PUT")
  {
  }

  lemma OutsideBeforeUserDeleteRoutes()
    ensures Outside(RootRoutes + VersionRoutes + AuthGetRoutes + AuthPostRoutes + UserGetRoutes + UserPutRoutes, "user", "DELETE")
  {
  }

  /** No two version-1 routes share a limiter. */
  lemma V1RoutesDistinct()
    ensures DistinctRoutes(V1Routes)
  {
    VersionRoutesDistinct();
    AuthGetRoutesDistinct();
    AuthPostRoutesDistinct();
    OutsideBeforeVersionRoutes();
    DistinctJoin(RootRoutes, VersionRoutes, "v1", "GET");
    OutsideBeforeAuthGetRoutes();
    DistinctJoin(RootRoutes + VersionRoutes, AuthGetRoutes, "auth", "GET");
    OutsideBeforeAuthPostRoutes();
    DistinctJoin(RootRoutes + VersionRoutes + AuthGetRoutes, AuthPostRoutes, "auth", "POST");
    OutsideBeforeUserGetRoutes();
    DistinctJoin(RootRoutes + VersionRoutes + AuthGetRoutes + AuthPostRoutes, UserGetRoutes, "user", "GET");
    OutsideBeforeUserPutRoutes();
    DistinctJoin(RootRoutes + VersionRoutes + AuthGetRoutes + AuthPostRoutes + UserGetRoutes, UserPutRoutes, "user", "PUT");
    OutsideBeforeUserDeleteRoutes();
    DistinctJoin(RootRoutes + VersionRoutes + AuthGetRoutes + AuthPostRoutes + UserGetRoutes + UserPutRoutes, UserDeleteRoutes, "user", "DELETE");
  }

  predicate AllOf(table: seq<RouteSpec>, P: RouteSpec -> bool)
  {
    forall i :: 0 <= i < |table| ==> P(table[i])
  }

  lemma AllOfJoin(a: seq<RouteSpec>, b: seq<RouteSpec>, P: RouteSpec -> bool)
    requires AllOf(a, P) && AllOf(b, P)
    ensures AllOf(a + b, P)
  {
    forall i | 0 <= i < |a + b|
      ensures P((a + b)[i])
    {
      if i >= |a| {
        assert (a + b)[i] == b[i - |a|];
      } else {
        assert (a + b)[i] == a[i];
      }
    }
  }

  /** A property that holds in every group holds in the whole table. */
  lemma AllOfV1(P: RouteSpec -> bool)
    requires AllOf(RootRoutes, P) && AllOf(VersionRoutes, P) && AllOf(AuthGetRoutes, P) && AllOf(AuthPostRoutes, P)
    requires AllOf(UserGetRoutes, P) && AllOf(UserPutRoutes, P) && AllOf(UserDeleteRoutes, P)
    ensures AllOf(V1Routes, P)
  {
    AllOfJoin(RootRoutes, VersionRoutes, P);
    AllOfJoin(RootRoutes + VersionRoutes, AuthGetRoutes, P);
    AllOfJoin(RootRoutes + VersionRoutes + AuthGetRoutes, AuthPostRoutes, P);
    AllOfJoin(RootRoutes + VersionRoutes + AuthGetRoutes + AuthPostRoutes, UserGetRoutes, P);
    AllOfJoin(RootRoutes + VersionRoutes + AuthGetRoutes + AuthPostRoutes + UserGetRoutes, UserPutRoutes, P);
    AllOfJoin(RootRoutes + VersionRoutes + AuthGetRoutes + AuthPostRoutes + UserGetRoutes + UserPutRoutes, UserDeleteRoutes, P);
  }

  /** A route is limited by id exactly when it is authenticated, by address otherwise, and its gate is its first middleware. */
  predicate KeyedBehindGate(s: RouteSpec)
  {
    (s.onID <==> s.hasAuth) && (s.onIP <==> !s.onID)
    && (s.hasAuth ==> |s.middlewares| > 0 && s.middlewares[0].AuthBearer?)
  }

  /** Only the two sign-up key routes demand an admin, and only /refresh takes a refresh token. */
  predicate GateAsDeclared(s: RouteSpec)
  {
    s.hasAuth && |s.middlewares| > 0 && s.middlewares[0].AuthBearer? ==>
      (s.middlewares[0].onlyAdmin <==> s.router == "auth" && (s.path == "/tmp/signup/key" || s.path == "/signup/key"))
      && (s.middlewares[0].jwtType == RefreshJwtType <==> s.router == "auth" && s.path == "/refresh")
      && (s.middlewares[0].jwtType == AccessJwtType || s.middlewares[0].jwtType == RefreshJwtType)
  }

  lemma V1LimiterKeys()
    ensures forall i :: 0 <= i < |V1Routes| ==> KeyedBehindGate(V1Routes[i])
  {
    assert AllOf(AuthGetRoutes, KeyedBehindGate);
    assert AllOf(AuthPostRoutes, KeyedBehindGate);
    AllOfV1(KeyedBehindGate);
  }

  lemma V1GateKinds()
    ensures forall i :: 0 <= i < |V1Routes| ==> GateAsDeclared(V1Routes[i])
  {
    assert AllOf(AuthGetRoutes, GateAsDeclared);
    assert AllOf(AuthPostRoutes, GateAsDeclared);
    AllOfV1(GateAsDeclared);
  }

  /**
   * On every version-1 route limited by id, the gate runs first and the
   * limiter second, so the limiter always finds the X-User-ID the gate set.
   */
  lemma {:induction false} GateBeforeIdLimiter(s: RouteSpec)
    requires s in V1Routes && s.onID
    ensures Registrable(s)
    ensures var chain := Registered(s).chain;
            |chain| >= 3 && chain[0] == s.middlewares[0] && chain[0].AuthBearer?
            && chain[1] == RateLimit(Limiter(RouteOf(s), Budget(s.tokens), s.interval, OnId))
  {
    V1RoutesRegistrable();
    V1LimiterKeys();
    var limit := RateLimit(Limiter(RouteOf(s), Budget(s.tokens), s.interval, KeyKindOf(s.onIP, s.onID).value));
    ChainOrder(s.hasAuth, limit, s.middlewares, s.handler);
  }
}
