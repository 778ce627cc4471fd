/**
 * The service's error type: a structured error carrying an HTTP status code,
 * an application code, a message, reasons and a trail of callers, plus the
 * package-level templates, the pipe that prepends a caller, and the
 * conversion to and from the JSON error body.
 */
module Errors {
  import opened Wrappers
  import opened GoStrings

  type AppCode = int

  const NotImplementedAppCode: AppCode := 998
  const TooManyRequestsAppCode: AppCode := 999
  const InternalServerAppCode: AppCode := 1000
  const NotFoundAppCode: AppCode := 1001
  const InvalidHostAppCode: AppCode := 1002
  const UnsupportedMediaTypeAppCode: AppCode := 1003
  const BadRequestAppCode: AppCode := 1004
  const UsernameAlreadyExistsAppCode: AppCode := 1005
  const UserNotFoundAppCode: AppCode := 1006
  const UsernameNotFoundAppCode: AppCode := 1007
  const TokenIncorrectAppCode: AppCode := 1008
  const PasswordIncorrectAppCode: AppCode := 1009
  const JwtUnauthorizedAppCode: AppCode := 1010
  const AuthMethodOtpGetTooEarlyAppCode: AppCode := 1011
  const AuthSignupKeyIncorrectAppCode: AppCode := 1012
  const BadAvatarAppCode: AppCode := 1013
  const UsernameIsTakenAppCode: AppCode := 1014
  const UserDeletedAppCode: AppCode := 1015
  const UserHasNotSetEmailAppCode: AppCode := 1016
  const UserHasNotSetPhoneNumberAppCode: AppCode := 1017
  const EmailIsTakenByMultipleAppCode: AppCode := 1018
  const PhoneNumberIsTakenByMultipleAppCode: AppCode := 1019
  const PostDeletedAppCode: AppCode := 1020

  /** The application codes in declaration order (an iota block starting at 998). */
  const AppCodes: seq<AppCode> :=
    [NotImplementedAppCode, TooManyRequestsAppCode, InternalServerAppCode, NotFoundAppCode,
     InvalidHostAppCode, UnsupportedMediaTypeAppCode, BadRequestAppCode,
     UsernameAlreadyExistsAppCode, UserNotFoundAppCode, UsernameNotFoundAppCode,
     TokenIncorrectAppCode, PasswordIncorrectAppCode, JwtUnauthorizedAppCode,
     AuthMethodOtpGetTooEarlyAppCode, AuthSignupKeyIncorrectAppCode, BadAvatarAppCode,
     UsernameIsTakenAppCode, UserDeletedAppCode, UserHasNotSetEmailAppCode,
     UserHasNotSetPhoneNumberAppCode, EmailIsTakenByMultipleAppCode,
     PhoneNumberIsTakenByMultipleAppCode, PostDeletedAppCode]

  predicate IsAppCode(c: AppCode) { 998 <= c <= 1020 }

  /** HTTP status and message of the template for each application code. */
  function TemplateEntry(c: AppCode): (int, string)
    requires IsAppCode(c)
  {
    match c
    case 998 => (501, "not implemented")
    case 999 => (429, "too many requests")
    case 1000 => (500, "internal server error")
    case 1001 => (404, "not found")
    case 1002 => (400, "invalid host")
    case 1003 => (415, "unsupported media type")
    case 1004 => (400, "bad request")
    case 1005 => (409, "username already exists")
    case 1006 => (404, "user not found")
    case 1007 => (404, "username not found")
    case 1008 => (401, "token incorrect")
    case 1009 => (401, "password incorrect")
    case 1010 => (401, "jwt unauthorized")
    case 1011 => (429, "otp get is called too early")
    case 1012 => (401, "signup key incorrect")
    case 1013 => (400, "bad avatar image")
    case 1014 => (409, "username is taken")
    case 1015 => (410, "user has been deleted")
    case 1016 => (400, "user has not set email")
    case 1017 => (400, "user has not set phone number")
    case 1018 => (409, "email is taken by multiple users")
    case 1019 => (409, "phone number is taken by multiple users")
    case 1020 => (410, "post has been deleted")
  }

  /** A reason value; every reason the core attaches is a string. */
  type Reason = string

  /** The value held by an Error object. */
  datatype ErrorValue = ErrorValue(
    status: string,
    code: int,
    appCode: AppCode,
    message: string,
    reasons: map<string, Reason>,
    callers: seq<string>,
    isInternal: bool)
  {
    function WithReason(key: string, value: Reason): ErrorValue
    {
      this.(reasons := reasons[key := value])
    }

    function WithAppCode(c: AppCode): ErrorValue
    {
      this.(appCode := c)
    }

    function WithCaller(caller: string): ErrorValue
    {
      this.(callers := [caller] + callers)
    }
  }

  const Punctuation: set<char> := {'!', '?', '.'}

  /** NewError: status "error", no reasons, no callers, message without trailing punctuation. */
  function NewErrorValue(code: int, message: string): (e: ErrorValue)
    ensures e.status == "error" && e.code == code && e.appCode == 0
    ensures e.reasons == map[] && e.callers == [] && !e.isInternal
    ensures RightTrimmedOf(e.message, message, Punctuation)
  {
    ErrorValue("error", code, 0, TrimRight(message, Punctuation), map[], [], false)
  }

  /**
   * NewInternalError(err, prefix): the message is the wrapped error's text,
   * prefixed by "prefix: " when a non-empty prefix is given; the HTTP code is
   * the numeric value of InternalServerAppCode, and no application code is set.
   */
  function NewInternalValue(errText: string, prefix: string): (e: ErrorValue)
    ensures e.isInternal && e.status == "error" && e.appCode == 0
    ensures e.code == InternalServerAppCode
    ensures e.reasons == map[] && e.callers == []
    ensures prefix == [] ==> RightTrimmedOf(e.message, errText, Punctuation)
    ensures prefix != [] ==> RightTrimmedOf(e.message, prefix + ": " + errText, Punctuation)
  {
    var msg := if prefix == [] then errText else prefix + ": " + errText;
    ErrorValue("error", InternalServerAppCode, 0, TrimRight(msg, Punctuation), map[], [], true)
  }

  /**
   * The package-level template for application code `c`: what NewError
   * builds from the entry's status and message, with the application code
   * set (TemplatesAsDeclared).
   */
  function Template(c: AppCode): ErrorValue
    requires IsAppCode(c)
  {
    ErrorValue("error", TemplateEntry(c).0, c, TemplateEntry(c).1, map[], [], false)
  }

  /** A message that does not end in punctuation is left as it is by the trim. */
  lemma TrimKeepsClean(m: string)
    requires m == [] || m[|m| - 1] !in Punctuation
    ensures TrimRight(m, Punctuation) == m
  {
  }

  /** No template message ends in punctuation, so NewError keeps each as written. */
  lemma TemplateMessageClean(c: AppCode)
    requires IsAppCode(c)
    ensures TrimRight(TemplateEntry(c).1, Punctuation) == TemplateEntry(c).1
  {
    match c
    case 998 => TrimKeepsClean("not implemented");
    case 999 => TrimKeepsClean("too many requests");
    case 1000 => TrimKeepsClean("internal server error");
    case 1001 => TrimKeepsClean("not found");
    case 1002 => TrimKeepsClean("invalid host");
    case 1003 => TrimKeepsClean("unsupported media type");
    case 1004 => TrimKeepsClean("bad request");
    case 1005 => TrimKeepsClean("username already exists");
    case 1006 => TrimKeepsClean("user not found");
    case 1007 => TrimKeepsClean("username not found");
    case 1008 => TrimKeepsClean("token incorrect");
    case 1009 => TrimKeepsClean("password incorrect");
    case 1010 => TrimKeepsClean("jwt unauthorized");
    case 1011 => TrimKeepsClean("otp get is called too early");
    case 1012 => TrimKeepsClean("signup key incorrect");
    case 1013 => TrimKeepsClean("bad avatar image");
    case 1014 => TrimKeepsClean("username is taken");
    case 1015 => TrimKeepsClean("user has been deleted");
    case 1016 => TrimKeepsClean("user has not set email");
    case 1017 => TrimKeepsClean("user has not set phone number");
    case 1018 => TrimKeepsClean("email is taken by multiple users");
    case 1019 => TrimKeepsClean("phone number is taken by multiple users");
    case 1020 => TrimKeepsClean("post has been deleted");
  }

  lemma {:induction false} TemplatesAsDeclared(c: AppCode)
    requires IsAppCode(c)
    ensures Template(c) == NewErrorValue(TemplateEntry(c).0, TemplateEntry(c).1).WithAppCode(c)
    ensures Template(c).appCode == c == AppCodes[c - 998]
    ensures !Template(c).isInternal && Template(c).callers == [] && Template(c).reasons == map[]
  {
    TemplateMessageClean(c);
  }

  /** Two different application codes have different templates. */
  lemma TemplatesDistinct(c: AppCode, d: AppCode)
    requires IsAppCode(c) && IsAppCode(d) && c != d
    ensures Template(c) != Template(d)
  {
  }

  /** A Go `error` as seen by FuncPipe: one of ours, or any other error with its text. */
  datatype GoError = Structured(e: ErrorValue) | Plain(text: string)

  /**
   * FuncPipe: no error stays no error; a structured error gets the caller
   * prepended to its trail; any other error becomes an internal error whose
   * only caller is `caller`.
   */
  function FuncPipe(caller: string, err: Option<GoError>): (r: Option<ErrorValue>)
    ensures r.None? <==> err.None?
    ensures err.Some? && err.value.Structured? ==> r == Some(err.value.e.WithCaller(caller))
    ensures err.Some? && err.value.Plain? ==>
      r.Some? && r.value.isInternal && r.value.callers == [caller]
      && RightTrimmedOf(r.value.message, err.value.text, Punctuation)
  {
    match err
    case None => None
    case Some(Structured(e)) => Some(e.WithCaller(caller))
    case Some(Plain(t)) => Some(NewInternalValue(t, "").WithCaller(caller))
  }

  /** The result of an operation: a value, one of our errors, or a Go runtime panic. */
  datatype Outcome<+T> = Ok(value: T) | Fail(err: ErrorValue) | Crash(why: string)
  {
    predicate Failed() { !Ok? }

    /** The same failure, as the result of a caller with another result type. */
    function Forward<U>(): (r: Outcome<U>)
      requires Failed()
      ensures Fail? ==> r == Fail(err)
      ensures Crash? ==> r == Crash(why)
    {
      if Fail? then Fail(err) else Crash(why)
    }
  }

  /** FuncPipe applied to the error half of an operation's result. */
  function Pipe<T>(caller: string, o: Outcome<T>): (r: Outcome<T>)
    ensures o.Ok? <==> r.Ok?
    ensures o.Ok? ==> r == o
    ensures o.Crash? ==> r == o
    ensures o.Fail? ==> r.Fail? && r.err.callers == [caller] + o.err.callers
    ensures o.Fail? ==> r.err.(callers := o.err.callers) == o.err
  {
    match o
    case Fail(e) => Fail(e.WithCaller(caller))
    case _ => o
  }

  /** A mutable error object; Value() is what it holds. */
  class Error {
    var status: string
    var code: int
    var appCode: AppCode
    var message: string
    var reasons: map<string, Reason>
    var callers: seq<string>
    var isInternal: bool

    function Value(): ErrorValue
      reads this
    {
      ErrorValue(status, code, appCode, message, reasons, callers, isInternal)
    }

    /** The `&Error{...}` literal. */
    constructor FromValue(v: ErrorValue)
      ensures Value() == v
    {
      status, code, appCode, message := v.status, v.code, v.appCode, v.message;
      reasons, callers, isInternal := v.reasons, v.callers, v.isInternal;
    }

    /** Clone: a fresh object with equal contents; later changes to either do not reach the other. */
    method Clone() returns (c: Error)
      ensures fresh(c) && c.Value() == Value()
    {
      c := new Error.FromValue(Value());
    }

    method WithReason(key: string, value: Reason) returns (r: Error)
      modifies this
      ensures r == this && Value() == old(Value()).WithReason(key, value)
    {
      reasons := reasons[key := value];
      r := this;
    }

    method WithAppCode(c: AppCode) returns (r: Error)
      modifies this
      ensures r == this && Value() == old(Value()).WithAppCode(c)
    {
      appCode := c;
      r := this;
    }

    method WithCaller(caller: string) returns (r: Error)
      modifies this
      ensures r == this && Value() == old(Value()).WithCaller(caller)
    {
      callers := [caller] + callers;
      r := this;
    }
  }

  method NewError(code: int, message: string) returns (e: Error)
    ensures fresh(e) && e.Value() == NewErrorValue(code, message)
  {
    e := new Error.FromValue(NewErrorValue(code, message));
  }

  /**
   * A handler's usual use of a template: clone it and decorate the clone.
   * The template object is left as it was.
   */
  method CloneWithReason(template: Error, key: string, value: Reason) returns (e: Error)
    ensures fresh(e) && e.Value() == template.Value().WithReason(key, value)
    ensures template.Value() == old(template.Value())
  {
    var c := template.Clone();
    e := c.WithReason(key, value);
  }

  /** The JSON body of an error response. */
  datatype ErrorResp = ErrorResp(
    status: string,
    code: int,
    message: string,
    reasons: map<string, Reason>,
    callers: seq<string>)

  /** The JSON keys the body carries: "reasons" and "callers" are omitted when empty. */
  function JsonKeys(r: ErrorResp): set<string>
  {
    {"status", "code", "message"}
    + (if r.reasons != map[] then {"reasons"} else {})
    + (if r.callers != [] then {"callers"} else {})
  }

  /** getErrorResp: the body puts the application code in "code" and shows callers only in debug mode. */
  function GetErrorResp(e: ErrorValue, debug: bool): (r: ErrorResp)
    ensures r.status == e.status && r.code == e.appCode && r.message == e.message
    ensures r.reasons == e.reasons
    ensures r.callers == (if debug then e.callers else [])
  {
    if debug then ErrorResp(e.status, e.appCode, e.message, e.reasons, e.callers)
    else ErrorResp(e.status, e.appCode, e.message, e.reasons, [])
  }

  lemma CallersOnlyInDebug(e: ErrorValue, debug: bool)
    ensures "callers" in JsonKeys(GetErrorResp(e, debug)) <==> debug && e.callers != []
  {
  }

  /** ToError: rebuild an error from a received body and the response's HTTP status. */
  function ToError(resp: ErrorResp, code: int): (e: ErrorValue)
    ensures !e.isInternal && e.code == code && e.appCode == resp.code
    ensures GetErrorResp(e, true) == resp
  {
    ErrorValue(resp.status, code, resp.code, resp.message, resp.reasons, resp.callers, false)
  }

  /** A non-internal error survives the trip through its debug body and back. */
  lemma {:induction false} ToErrorRoundTrip(e: ErrorValue)
    requires !e.isInternal
    ensures ToError(GetErrorResp(e, true), e.code) == e
  {
  }

  /** Outside debug mode the rebuilt error has lost its caller trail, and nothing else. */
  lemma {:induction false} ToErrorDropsCallers(e: ErrorValue)
    requires !e.isInternal
    ensures ToError(GetErrorResp(e, false), e.code) == e.(callers := [])
  {
  }

  /** An error reaching the HTTP error handler. */
  datatype HandlerError = FiberError(fiberCode: int) | AppError(e: ErrorValue) | UnknownError(text: string)

  /**
   * ErrorHandlerFunc: the HTTP status and body returned for an error. Fiber's
   * own 404 and 500 get the matching templates; anything that is not one of
   * our errors, and any internal error, becomes a generic 500; all other
   * errors answer with their own status and body.
   */
  function ErrorHandler(err: HandlerError, debug: bool): (r: (int, ErrorResp))
    ensures err.AppError? && !err.e.isInternal ==> r == (err.e.code, GetErrorResp(err.e, debug))
    ensures err.FiberError? && err.fiberCode == 404 ==> r == (404, GetErrorResp(Template(NotFoundAppCode), debug))
    ensures (err.AppError? && err.e.isInternal) || err.UnknownError?
            || (err.FiberError? && err.fiberCode != 404)
            ==> r == (500, GetErrorResp(Template(InternalServerAppCode), debug))
  {
    match err
    case FiberError(c) =>
      if c == 404 then (404, GetErrorResp(Template(NotFoundAppCode), debug))
      else (500, GetErrorResp(Template(InternalServerAppCode), debug))
    case UnknownError(_) => (500, GetErrorResp(Template(InternalServerAppCode), debug))
    case AppError(e) =>
      if e.isInternal then (500, GetErrorResp(Template(InternalServerAppCode), debug))
      else (e.code, GetErrorResp(e, debug))
  }

  /** The text of an internal error never reaches the client. */
  lemma InternalErrorsHidden(e: ErrorValue, debug: bool)
    requires e.isInternal
    ensures ErrorHandler(AppError(e), debug).0 == 500
    ensures ErrorHandler(AppError(e), debug).1.message == "internal server error"
    ensures ErrorHandler(AppError(e), debug).1.callers == []
  {
    TemplatesAsDeclared(InternalServerAppCode);
  }

  /**
   * HandleUtilsError: the status and body written for one of our errors by
   * plain net/http handlers. A copy with this function as first caller is
   * written, or the internal-error template for an internal error.
   */
  function HandleUtilsError(e: ErrorValue, debug: bool): (r: (int, ErrorResp))
    ensures e.isInternal ==> r == (500, GetErrorResp(Template(InternalServerAppCode), debug))
    ensures !e.isInternal ==> r.0 == e.code && r.1.code == e.appCode && r.1.message == e.message
    ensures !e.isInternal && debug ==> r.1.callers == ["utils.HandleUtilsError"] + e.callers
  {
    if e.isInternal then (500, GetErrorResp(Template(InternalServerAppCode), debug))
    else (e.code, GetErrorResp(e.WithCaller("utils.HandleUtilsError"), debug))
  }

  /** HandleUnknownError: any other error is written as a 500 internal-server-error body. */
  function HandleUnknownError(debug: bool): (r: (int, ErrorResp))
    ensures r.0 == 500 && r.1.code == InternalServerAppCode
    ensures debug ==> r.1.callers == ["utils.HandleUnknownError"]
  {
    var t := Template(InternalServerAppCode).WithCaller("utils.HandleUnknownError");
    (t.code, GetErrorResp(t, debug))
  }

  /** The Debug flag: the DEBUG variable parsed as a boolean, "false" when unset; None is the start-up panic. */
  function DebugFromEnv(env: string): (r: Option<bool>)
    ensures env == "" ==> r == Some(false)
    ensures env != "" ==> r == ParseBool(env)
  {
    ParseBool(if env == "" then "false" else env)
  }
}
