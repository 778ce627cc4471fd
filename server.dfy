/**
 * What every service's HTTP server checks before a handler runs: the Host
 * header, the identity headers the gateway forwards, the content type, and
 * CanPass, which decides whether the caller may act on a target account.
 */
module Server {
  import opened Wrappers
  import opened GoStrings
  import opened Errors
  import opened IoAuth
  import opened Uuids

  const ServerCaller: string := "server.AbstractServer"

  /** A value a middleware stores in the request's locals, tagged with its Go type. */
  datatype Local = IdLocal(id: Uuid) | TextLocal(text: string) | TypeLocal(userType: UserType) | LoginLocal(user: User, jwt: Jwt)

  /** A request as the middlewares see it: its original URL, its headers and its locals. */
  class Ctx {
    const path: string
    var headers: map<string, string>
    var locals: map<string, Local>

    constructor (path: string, headers: map<string, string>)
      ensures this.path == path && this.headers == headers && locals == map[]
    {
      this.path := path;
      this.headers := headers;
      locals := map[];
    }

    /** c.Get: a header that was not sent reads as "". */
    function Get(name: string): string
      reads this
    {
      Header(headers, name)
    }
  }

  /** A header that was not sent reads as "". */
  function Header(headers: map<string, string>, name: string): string
  {
    if name in headers then headers[name] else ""
  }

  /** `c.Locals(key).(uuid.UUID)`, `.(string)` and `.(ports.UserType)`: None where the assertion would panic. */
  function IdLocalOf(locals: map<string, Local>): Option<Uuid>
  {
    if "id" in locals && locals["id"].IdLocal? then Some(locals["id"].id) else None
  }

  function PhoneLocalOf(locals: map<string, Local>): Option<string>
  {
    if "phone" in locals && locals["phone"].TextLocal? then Some(locals["phone"].text) else None
  }

  function TypeLocalOf(locals: map<string, Local>): Option<UserType>
  {
    if "userType" in locals && locals["userType"].TypeLocal? then Some(locals["userType"].userType) else None
  }

  function AssertionPanic(key: string): string
  {
    "interface conversion: local " + key + " is nil"
  }

  /** The refusal CanPass returns. */
  const Denied: ErrorValue := Template(JwtUnauthorizedAppCode).WithCaller(ServerCaller + ".CanPass")

  /**
   * The switch in CanPass: an admin may act on anyone; otherwise the target
   * must be the caller, or, when a target phone is given, carry the caller's
   * phone. Only the first target phone is looked at.
   */
  function Allowed(sourceId: Uuid, sourcePhone: string, sourceType: UserType, targetId: Uuid, targetPhone: seq<string>): (ok: bool)
    ensures sourceType == AdminUserType || sourceId == targetId ==> ok
    ensures ok && sourceType != AdminUserType && sourceId != targetId ==> targetPhone != [] && sourcePhone == targetPhone[0]
  {
    if sourceType == AdminUserType then true
    else if |targetPhone| == 0 then sourceId == targetId
    else sourceId == targetId || sourcePhone == targetPhone[0]
  }

  /**
   * CanPass as written: the id, phone and user-type locals are asserted in
   * that order, so a request whose phone local was never set panics even
   * when the phone is not needed. A call with no target phone passes Go's
   * nil slice, modelled as the empty sequence.
   */
  function CanPassAsWritten(locals: map<string, Local>, targetId: Uuid, targetPhone: seq<string>): (r: Outcome<()>)
    ensures PhoneLocalOf(locals).None? ==> r.Crash?
  {
    if IdLocalOf(locals).None? then Crash(AssertionPanic("id"))
    else if PhoneLocalOf(locals).None? then Crash(AssertionPanic("phone"))
    else if TypeLocalOf(locals).None? then Crash(AssertionPanic("userType"))
    else if Allowed(IdLocalOf(locals).value, PhoneLocalOf(locals).value, TypeLocalOf(locals).value, targetId, targetPhone) then Ok(())
    else Fail(Denied)
  }

  /** CanPass with the phone local read only in the branch that compares it. */
  function CanPass(locals: map<string, Local>, targetId: Uuid, targetPhone: seq<string>): (r: Outcome<()>)
    ensures IdLocalOf(locals).None? || TypeLocalOf(locals).None? ==> r.Crash?
    ensures IdLocalOf(locals).Some? && TypeLocalOf(locals).Some? && TypeLocalOf(locals).value == AdminUserType ==> r == Ok(())
    ensures IdLocalOf(locals).Some? && TypeLocalOf(locals).Some? && TypeLocalOf(locals).value != AdminUserType && |targetPhone| == 0 ==>
              (r.Ok? <==> IdLocalOf(locals).value == targetId) && (!r.Ok? ==> r == Fail(Denied))
    ensures IdLocalOf(locals).Some? && TypeLocalOf(locals).Some? && TypeLocalOf(locals).value != AdminUserType && |targetPhone| > 0 ==>
              if PhoneLocalOf(locals).None? then r.Crash?
              else (r.Ok? <==> IdLocalOf(locals).value == targetId || PhoneLocalOf(locals).value == targetPhone[0])
                   && (!r.Ok? ==> r == Fail(Denied))
  {
    if IdLocalOf(locals).None? then Crash(AssertionPanic("id"))
    else if TypeLocalOf(locals).None? then Crash(AssertionPanic("userType"))
    else if TypeLocalOf(locals).value == AdminUserType then Ok(())
    else if |targetPhone| == 0 then (if IdLocalOf(locals).value == targetId then Ok(()) else Fail(Denied))
    else if PhoneLocalOf(locals).None? then Crash(AssertionPanic("phone"))
    else if IdLocalOf(locals).value == targetId || PhoneLocalOf(locals).value == targetPhone[0] then Ok(())
    else Fail(Denied)
  }

  /** Wherever the phone local is set, the corrected CanPass decides as the original does. */
  lemma CanPassAgrees(locals: map<string, Local>, targetId: Uuid, targetPhone: seq<string>)
    requires PhoneLocalOf(locals).Some?
    ensures CanPass(locals, targetId, targetPhone) == CanPassAsWritten(locals, targetId, targetPhone)
  {
  }

  /** Target phones after the first are ignored. */
  lemma LaterPhonesIgnored(locals: map<string, Local>, targetId: Uuid, targetPhone: seq<string>, rest: seq<string>)
    requires |targetPhone| > 0
    ensures CanPass(locals, targetId, targetPhone[..1] + rest) == CanPass(locals, targetId, targetPhone)
  {
    assert (targetPhone[..1] + rest)[0] == targetPhone[0];
  }

  /** The host name: the Host header up to its first ':'. */
  function HostName(host: string): string
  {
    Before(host, ':')
  }

  function HostAllowed(allowed: seq<string>, host: string): (ok: bool)
    ensures ok ==> allowed != []
    ensures HostName(host) in allowed ==> ok
  {
    exists i :: 0 <= i < |allowed| && EqualFold(HostName(host), allowed[i])
  }

  /** A host name without ':' is cut exactly at the port separator. */
  lemma {:induction false} BeforeSeparator(name: string, port: string)
    requires ':' !in name
    ensures HostName(name + ":" + port) == name
    decreases |name|
  {
    if name != [] {
      assert (name + ":" + port)[1..] == name[1..] + ":" + port;
      BeforeSeparator(name[1..], port);
    } else {
      assert (name + ":" + port)[0] == ':';
    }
  }

  /** The port never matters: "host:port" is let through exactly when "host" is. */
  lemma PortIgnored(allowed: seq<string>, name: string, port: string)
    requires ':' !in name
    ensures HostAllowed(allowed, name + ":" + port) <==> HostAllowed(allowed, name)
  {
    BeforeSeparator(name, port);
    NoSeparator(name);
  }

  lemma {:induction false} NoSeparator(name: string)
    requires ':' !in name
    ensures HostName(name) == name
    decreases |name|
  {
    if name != [] {
      NoSeparator(name[1..]);
    }
  }

  /** The refusal for a host not in the list: a plain 403 carrying the Host header as sent. */
  function HostRefused(host: string): ErrorValue
  {
    NewErrorValue(403, "Host not allowed").WithReason("host", host).WithCaller(ServerCaller + ".allowedHostsMiddleware")
  }

  /** allowedHostsMiddleware: the loop over the allowed hosts, stopping at the first match. */
  method AllowedHosts(allowed: seq<string>, host: string) returns (r: Outcome<()>)
    ensures r.Ok? <==> HostAllowed(allowed, host)
    ensures !r.Ok? ==> r == Fail(HostRefused(host))
  {
    var name := HostName(host);
    var i := 0;
    while i < |allowed|
      invariant 0 <= i <= |allowed|
      invariant forall j :: 0 <= j < i ==> !EqualFold(name, allowed[j])
    {
      if EqualFold(name, allowed[i]) {
        return Ok(());
      }
      i := i + 1;
    }
    return Fail(HostRefused(host));
  }

  predicate SegmentChar(c: char)
  {
    'a' <= c <= 'z' || 'A' <= c <= 'Z' || '0' <= c <= '9' || c == '_' || c == '-'
  }

  /** `^/<version>/[a-zA-Z0-9_-]+/health$`, the version taken literally. */
  predicate HealthPath(version: string, path: string)
  {
    var pre := "/" + version + "/";
    var suf := "/health";
    |path| > |pre| + |suf| && path[..|pre|] == pre && path[|path| - |suf|..] == suf
    && forall i :: |pre| <= i < |path| - |suf| ==> SegmentChar(path[i])
  }

  lemma HealthPathOf(version: string, name: string)
    requires name != [] && forall i :: 0 <= i < |name| ==> SegmentChar(name[i])
    ensures HealthPath(version, "/" + version + "/" + name + "/health")
  {
    var pre := "/" + version + "/";
    var path := pre + name + "/health";
    assert "/" + version + "/" + name + "/health" == path;
    assert path[..|pre|] == pre;
    assert path[|path| - 7..] == "/health";
    forall i | |pre| <= i < |path| - 7
      ensures SegmentChar(path[i])
    {
      assert path[i] == name[i - |pre|];
    }
  }

  /** The identity the gateway forwards in X-User-ID, X-User-Phone and X-User-UserType, checked in that order. */
  function ForwardedIdentity(headers: map<string, string>): (r: Outcome<(Uuid, string, UserType)>)
    ensures r.Ok? <==> Parse(Header(headers, "X-User-ID")).Some? && Header(headers, "X-User-Phone") != "" && Header(headers, "X-User-UserType") != ""
    ensures r.Ok? ==> r.value == (Parse(Header(headers, "X-User-ID")).value, Header(headers, "X-User-Phone"), Header(headers, "X-User-UserType"))
    ensures Parse(Header(headers, "X-User-ID")).None? ==> r == Fail(Template(BadRequestAppCode).WithReason("X-User-ID", Header(headers, "X-User-ID")))
    ensures Parse(Header(headers, "X-User-ID")).Some? && Header(headers, "X-User-Phone") == "" ==>
              r == Fail(Template(BadRequestAppCode).WithReason("X-User-Phone", ""))
    ensures Parse(Header(headers, "X-User-ID")).Some? && Header(headers, "X-User-Phone") != "" && Header(headers, "X-User-UserType") == "" ==>
              r == Fail(Template(BadRequestAppCode).WithReason("X-User-UserType", ""))
  {
    var id, phone, userType := Header(headers, "X-User-ID"), Header(headers, "X-User-Phone"), Header(headers, "X-User-UserType");
    match Parse(id)
    case None => Fail(Template(BadRequestAppCode).WithReason("X-User-ID", id))
    case Some(uid) =>
      if phone == "" then Fail(Template(BadRequestAppCode).WithReason("X-User-Phone", phone))
      else if userType == "" then Fail(Template(BadRequestAppCode).WithReason("X-User-UserType", userType))
      else Ok((uid, phone, userType))
  }

  /** The locals authMiddleware_ sets for an identity. */
  function IdentityLocals(locals: map<string, Local>, who: (Uuid, string, UserType)): map<string, Local>
  {
    locals["id" := IdLocal(who.0)]["phone" := TextLocal(who.1)]["userType" := TypeLocal(who.2)]
  }

  /**
   * authMiddleware_: health checks pass untouched; any other request needs
   * the forwarded identity, which it stores in the locals. Ok stands for
   * handing the request to the next handler.
   */
  method AuthMiddleware(c: Ctx, version: string) returns (r: Outcome<()>)
    modifies c
    ensures c.headers == old(c.headers)
    ensures HealthPath(version, c.path) ==> r == Ok(()) && c.locals == old(c.locals)
    ensures !HealthPath(version, c.path) && ForwardedIdentity(old(c.headers)).Failed() ==>
              r == Fail(ForwardedIdentity(old(c.headers)).err.WithCaller(ServerCaller + ".authMiddleware_")) && c.locals == old(c.locals)
    ensures !HealthPath(version, c.path) && ForwardedIdentity(old(c.headers)).Ok? ==>
              r == Ok(()) && c.locals == IdentityLocals(old(c.locals), ForwardedIdentity(old(c.headers)).value)
  {
    if HealthPath(version, c.path) { return Ok(()); }
    var who := ForwardedIdentity(c.headers);
    if who.Failed() {
      return Fail(who.err.WithCaller(ServerCaller + ".authMiddleware_"));
    }
    c.locals := IdentityLocals(c.locals, who.value);
    return Ok(());
  }

  /** Behind authMiddleware_, CanPass never panics: all three locals it asserts are set, with the right types. */
  lemma {:induction false} GatedCanPass(locals: map<string, Local>, who: (Uuid, string, UserType), targetId: Uuid, targetPhone: seq<string>)
    ensures var l := IdentityLocals(locals, who);
            !CanPassAsWritten(l, targetId, targetPhone).Crash?
            && (CanPassAsWritten(l, targetId, targetPhone).Ok? <==> Allowed(who.0, who.1, who.2, targetId, targetPhone))
  {
    var l := IdentityLocals(locals, who);
    assert l["id"] == IdLocal(who.0) && l["phone"] == TextLocal(who.1) && l["userType"] == TypeLocal(who.2);
  }

  /** ContentTypeMiddleware: the Content-Type header must be one of the accepted values, compared exactly. */
  function ContentTypeCheck(accepted: seq<string>, contentType: string): (r: Outcome<()>)
    ensures r.Ok? <==> contentType in accepted
    ensures !r.Ok? ==> r == Fail(Template(UnsupportedMediaTypeAppCode).WithReason("Content-Type", contentType))
  {
    if contentType in accepted then Ok(())
    else Fail(Template(UnsupportedMediaTypeAppCode).WithReason("Content-Type", contentType))
  }
}
