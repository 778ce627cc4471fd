/**
 * The rate limiter in front of every gateway route: one limiter per
 * registered (router, method, path), keyed on the client's address, its
 * user id, or both; the response writer it hands the limiting library; and
 * the translation of the status the library settled on into the service's
 * errors.
 */
module Ratelimiter {
  import opened Wrappers
  import opened Errors
  import opened Server

  const RatelimiterCaller: string := "services.Ratelimiter"

  datatype Route = Route(router: string, verb: string, path: string)

  /** What a setup step leaves: a value, or a fatal log line, after which the process exits. */
  datatype Setup<T> = Ready(value: T) | Fatal(message: string)

  datatype KeyKind = OnIp | OnId | OnIpAndId

  /** A limiter as registered: its route, the tokens it allows per interval (seconds), and what it keys on. */
  datatype Limiter = Limiter(route: Route, tokens: nat, interval: int, key: KeyKind)

  /** The switch over onIP and onID; neither is not a valid configuration. */
  function KeyKindOf(onIP: bool, onID: bool): (k: Option<KeyKind>)
    ensures k.None? <==> !onIP && !onID
    ensures k == Some(OnIpAndId) <==> onIP && onID
    ensures k == Some(OnIp) <==> onIP && !onID
    ensures k == Some(OnId) <==> !onIP && onID
  {
    if onIP && onID then Some(OnIpAndId)
    else if onIP then Some(OnIp)
    else if onID then Some(OnId)
    else None
  }

  /** The limiters' store registry. */
  class Registry {
    /** The budget (tokens, interval) of the store created for each route. */
    var stores: map<Route, (nat, int)>

    constructor ()
      ensures stores == map[]
    {
      stores := map[];
    }

    /**
     * Handler: a second registration of a route is fatal; otherwise its store
     * is created, and a configuration keyed on neither address nor id is fatal.
     */
    method Handler(router: string, verb: string, path: string, tokens: nat, interval: int, onIP: bool, onID: bool)
      returns (r: Setup<Limiter>)
      modifies this
      ensures var route := Route(router, verb, path);
              if route in old(stores) then r.Fatal? && stores == old(stores)
              else stores == old(stores)[route := (tokens, interval)]
                   && (KeyKindOf(onIP, onID).None? ==> r.Fatal?)
                   && (KeyKindOf(onIP, onID).Some? ==> r == Ready(Limiter(route, tokens, interval, KeyKindOf(onIP, onID).value)))
    {
      var route := Route(router, verb, path);
      if route in stores {
        return Fatal("route is already registered");
      }
      stores := stores[route := (tokens, interval)];
      var k := KeyKindOf(onIP, onID);
      if k.None? {
        return Fatal("onIP and onID are not valid");
      }
      return Ready(Limiter(route, tokens, interval, k.value));
    }
  }

  /** What a key function returns: the key, or a plain error (not one of the service's own). */
  datatype KeyResult = Key(key: string) | KeyError(message: string)

  function Prefix(route: Route): string
  {
    route.router + "-" + route.verb + "-" + route.path + "-"
  }

  const NoForwardedFor: string := "X-Forwarded-For header is missing"
  const NoUserId: string := "X-User-ID header is missing"

  /** ipFunc, idFunc and ipAndIdFunc: "router-method-path-" followed by the address, the id, or both with nothing between. */
  function KeyOf(kind: KeyKind, route: Route, headers: map<string, string>): (r: KeyResult)
    ensures kind != OnId && Header(headers, "X-Forwarded-For") == "" ==> r == KeyError(NoForwardedFor)
    ensures kind == OnId && Header(headers, "X-User-ID") == "" ==> r == KeyError(NoUserId)
    ensures kind == OnIpAndId && Header(headers, "X-Forwarded-For") != "" && Header(headers, "X-User-ID") == "" ==>
              r == KeyError(NoUserId)
    ensures r.Key? ==> Prefix(route) <= r.key
  {
    var ip := Header(headers, "X-Forwarded-For");
    var id := Header(headers, "X-User-ID");
    match kind
    case OnIp => if ip == "" then KeyError(NoForwardedFor) else Key(Prefix(route) + ip)
    case OnId => if id == "" then KeyError(NoUserId) else Key(Prefix(route) + id)
    case OnIpAndId =>
      if ip == "" then KeyError(NoForwardedFor)
      else if id == "" then KeyError(NoUserId)
      else Key(Prefix(route) + (ip + id))
  }

  lemma {:induction false} PrefixCancel(p: string, a: string, b: string)
    ensures p + a == p + b ==> a == b
  {
    if p + a == p + b {
      assert a == (p + a)[|p|..] && b == (p + b)[|p|..];
    }
  }

  /** On one route, two clients share an address key exactly when they send the same address. */
  lemma {:induction false} IpKeysSeparate(route: Route, h1: map<string, string>, h2: map<string, string>)
    requires Header(h1, "X-Forwarded-For") != "" && Header(h2, "X-Forwarded-For") != ""
    ensures KeyOf(OnIp, route, h1) == KeyOf(OnIp, route, h2) <==> Header(h1, "X-Forwarded-For") == Header(h2, "X-Forwarded-For")
  {
    PrefixCancel(Prefix(route), Header(h1, "X-Forwarded-For"), Header(h2, "X-Forwarded-For"));
  }

  /**
   * The combined key has no separator, yet user ids of one length (the
   * gateway forwards the 36-character form) keep different (address, id)
   * pairs apart.
   */
  lemma {:induction false} CombinedKeysSeparate(route: Route, h1: map<string, string>, h2: map<string, string>)
    requires Header(h1, "X-Forwarded-For") != "" && Header(h2, "X-Forwarded-For") != ""
    requires Header(h1, "X-User-ID") != "" && Header(h2, "X-User-ID") != ""
    requires |Header(h1, "X-User-ID")| == |Header(h2, "X-User-ID")|
    ensures KeyOf(OnIpAndId, route, h1) == KeyOf(OnIpAndId, route, h2) <==>
              Header(h1, "X-Forwarded-For") == Header(h2, "X-Forwarded-For") && Header(h1, "X-User-ID") == Header(h2, "X-User-ID")
  {
    var ip1, id1 := Header(h1, "X-Forwarded-For"), Header(h1, "X-User-ID");
    var ip2, id2 := Header(h2, "X-Forwarded-For"), Header(h2, "X-User-ID");
    PrefixCancel(Prefix(route), ip1 + id1, ip2 + id2);
    if ip1 + id1 == ip2 + id2 {
      assert |ip1| == |ip2|;
      assert ip1 == (ip1 + id1)[..|ip1|] && ip2 == (ip2 + id2)[..|ip2|];
      assert id1 == (ip1 + id1)[|ip1|..] && id2 == (ip2 + id2)[|ip2|..];
    }
  }

  /** Without equal-length ids, two different pairs can share a combined key. */
  lemma CombinedKeysCanCollide(route: Route)
    ensures KeyOf(OnIpAndId, route, map["X-Forwarded-For" := "1", "X-User-ID" := "23"])
            == KeyOf(OnIpAndId, route, map["X-Forwarded-For" := "12", "X-User-ID" := "3"])
  {
    assert "1" + "23" == "12" + "3";
  }

  /**
   * fiberResponseWriter: the status starts at 200; the first WriteHeader
   * fixes it, and a Write before any WriteHeader fixes it at 200. Written
   * bytes go to the response body.
   */
  class ResponseWriter {
    var statusCode: int
    var written: bool
    var body: seq<bv8>

    constructor ()
      ensures statusCode == 200 && !written && body == []
    {
      statusCode := 200;
      written := false;
      body := [];
    }

    method WriteHeader(code: int)
      modifies this
      ensures written && body == old(body)
      ensures statusCode == if old(written) then old(statusCode) else code
    {
      if !written {
        statusCode := code;
        written := true;
      }
    }

    method Write(b: seq<bv8>) returns (n: int)
      modifies this
      ensures written && body == old(body) + b && n == |b|
      ensures statusCode == if old(written) then old(statusCode) else 200
    {
      if !written {
        WriteHeader(200);
      }
      body := body + b;
      n := |b|;
    }
  }

  /** The status fiberMiddleware turns into an error, and the body length it looks at for 429s. */
  function StatusError(status: int, bodyLength: nat): (r: Outcome<()>)
    ensures r.Ok? <==> status != 429 && status != 500
    ensures status == 429 && bodyLength >= 71 ==>
              r == Fail(Template(AuthMethodOtpGetTooEarlyAppCode).WithCaller(RatelimiterCaller + ".fiberMiddleware"))
    ensures status == 429 && bodyLength < 71 ==>
              r == Fail(Template(TooManyRequestsAppCode).WithCaller(RatelimiterCaller + ".fiberMiddleware"))
    ensures status == 500 ==> r == Fail(Template(InternalServerAppCode).WithCaller(RatelimiterCaller + ".fiberMiddleware"))
  {
    var e :=
      if status == 429 then
        (if bodyLength >= 71 then Some(Template(AuthMethodOtpGetTooEarlyAppCode)) else Some(Template(TooManyRequestsAppCode)))
      else if status == 500 then Some(Template(InternalServerAppCode))
      else None;
    if e.Some? then Fail(e.value.WithCaller(RatelimiterCaller + ".fiberMiddleware")) else Ok(())
  }

  /** The error fiberMiddleware returns answers with the status the writer settled on. */
  lemma StatusErrorKeepsStatus(status: int, bodyLength: nat)
    requires status == 429 || status == 500
    ensures StatusError(status, bodyLength).err.code == status
  {
  }
}
