/**
 * The collaborators the auth and user services call but which are outside
 * the core: the avatar bucket, the SMS sender and the mail sender. Each is
 * a store of what was done to it plus a flag that makes its calls fail.
 */
module Externals {
  import opened Wrappers
  import opened Errors
  import opened IoAuth
  import opened Uuids

  /** The object name an avatar is stored under in the avatars bucket. */
  function AvatarObject(userType: UserType, id: Uuid): string
  {
    userType + "/" + ToString(id) + ".png"
  }

  lemma AvatarObjectsDistinct(t1: UserType, i1: Uuid, t2: UserType, i2: Uuid)
    requires t1 in AllUserTypes && t2 in AllUserTypes
    requires AvatarObject(t1, i1) == AvatarObject(t2, i2)
    ensures t1 == t2 && i1 == i2
  {
    var a := AvatarObject(t1, i1);
    assert t1 == "admin" || t1 == "client";
    assert t2 == "admin" || t2 == "client";
    assert a[0] == t1[0] && a[0] == t2[0];
    assert t1 == t2;
    assert a[|t1| + 1..|t1| + 37] == ToString(i1);
    assert a[|t2| + 1..|t2| + 37] == ToString(i2);
    ParseToString(i1);
    ParseToString(i2);
  }

  /** An error a remote service returns, piped through each of its callers in turn. */
  function RemoteError(callers: seq<string>, text: string): (e: ErrorValue)
    requires callers != []
    ensures e.isInternal && e.callers == callers
    decreases |callers|
  {
    if |callers| == 1 then FuncPipe(callers[0], Some(Plain(text))).value
    else RemoteError(callers[1..], text).WithCaller(callers[0])
  }

  const Unreachable: string := "connection refused"

  /** What Telecom.NoReplySend returns when the SMS provider rejects a message. */
  const TelecomError: ErrorValue := RemoteError(["services.Telecom.NoReplySend", "services.Telecom.send"], Unreachable)

  class ObjectStore {
    /** The names of the objects in the avatars bucket. */
    var objects: set<string>
    var down: bool

    constructor ()
      ensures objects == {} && !down
    {
      objects := {};
      down := false;
    }

    /** UploadAvatar: PNG-encodes the image (abstracted) and puts it under its object name. */
    method UploadAvatar(id: Uuid, userType: UserType) returns (r: Outcome<()>)
      modifies this
      ensures down == old(down)
      ensures down ==> r == Fail(RemoteError(["repository.S3.UploadAvatar", "repository.S3.uploadImage"], Unreachable))
                       && objects == old(objects)
      ensures !down ==> r == Ok(()) && objects == old(objects) + {AvatarObject(userType, id)}
    {
      if down {
        return Fail(RemoteError(["repository.S3.UploadAvatar", "repository.S3.uploadImage"], Unreachable));
      }
      objects := objects + {AvatarObject(userType, id)};
      return Ok(());
    }

    /** RemoveObject succeeds whether or not the object exists. */
    method DeleteAvatar(id: Uuid, userType: UserType) returns (r: Outcome<()>)
      modifies this
      ensures down == old(down)
      ensures down ==> r == Fail(RemoteError(["repository.S3.DeleteAvatar"], Unreachable)) && objects == old(objects)
      ensures !down ==> r == Ok(()) && objects == old(objects) - {AvatarObject(userType, id)}
    {
      if down {
        return Fail(RemoteError(["repository.S3.DeleteAvatar"], Unreachable));
      }
      objects := objects - {AvatarObject(userType, id)};
      return Ok(());
    }
  }

  /** The header every SMS template starts with, in three pieces. */
  const HeaderTitle: string := "Kasragay\n\n"
  const HeaderWarning: string := "This message contains"
  const HeaderWarningEnd: string := " sensitive information.\n\n"
  const OtpMessageHeader: string := HeaderTitle + HeaderWarning + HeaderWarningEnd

  /** otpMessages: the SMS templates; a type without an entry reads as "". */
  function OtpMessage(otpType: OtpType): string
  {
    if otpType == AdminSignupKeyOtpType then OtpMessageHeader + "Admin Signup key: %s"
    else if otpType == SignupOtpType then OtpMessageHeader + "Signup code:\n%s"
    else if otpType == SigninOtpType then OtpMessageHeader + "Signin code:\n%s"
    else if otpType == ChangePasswordOtpType then OtpMessageHeader + "Change password code:\n%s"
    else if otpType == ChangePhoneOtpType then OtpMessageHeader + "Change phone code:\n%s"
    else if otpType == DeleteAccountOtpType then OtpMessageHeader + "Delete account code:\n%s"
    else ""
  }

  function SubjectOf(otpType: OtpType): string
  {
    if otpType == AdminSignupKeyOtpType then "Admin Signup Key - Kasragay"
    else if otpType == SignupOtpType then "Signup Otp - Kasragay"
    else if otpType == SigninOtpType then "Signin Otp - Kasragay"
    else if otpType == ChangePhoneOtpType then "Change Phone Otp - Kasragay"
    else if otpType == ChangePasswordOtpType then "Change Password Otp - Kasragay"
    else if otpType == DeleteAccountOtpType then "Delete Account Otp - Kasragay"
    else ""
  }

  /** The OTP types that have a mail body generator in otpMails. */
  predicate HasMailBody(otpType: OtpType)
  {
    otpType in [AdminSignupKeyOtpType, SignupOtpType, SigninOtpType, ChangePhoneOtpType, ChangePasswordOtpType, DeleteAccountOtpType]
  }

  lemma RecoveryEmailHasNoTemplates()
    ensures !HasMailBody(ChangeEmailOtpType) && OtpMessage(ChangeEmailOtpType) == "" && SubjectOf(ChangeEmailOtpType) == ""
    ensures forall t :: t in OtpTypes && t != ChangeEmailOtpType ==> HasMailBody(t) && HasSmsTemplate(t)
  {
  }

  /** No `%` at all: the format has no verb. */
  predicate NoVerb(s: string)
  {
    '%' !in s
  }

  /**
   * fmt.Sprintf with one string argument, for formats whose only verb is
   * `%s`: the first `%s` takes the argument; a format without one gets the
   * `%!(EXTRA string=…)` suffix.
   */
  function Sprintf1(format: string, arg: string): (s: string)
    ensures NoVerb(format) ==> s == format + "%!(EXTRA string=" + arg + ")"
    decreases |format|
  {
    if |format| >= 2 && format[..2] == "%s" then arg + format[2..]
    else if format == [] then "%!(EXTRA string=" + arg + ")"
    else [format[0]] + Sprintf1(format[1..], arg)
  }

  /** A template ending in its only `%s` puts the argument at the end. */
  lemma {:induction false} SprintfAtEnd(prefix: string, arg: string)
    requires NoVerb(prefix)
    ensures Sprintf1(prefix + "%s", arg) == prefix + arg
    decreases |prefix|
  {
    if prefix == [] {
      assert prefix + "%s" == "%s";
    } else {
      var f := prefix + "%s";
      assert f[0] == prefix[0] && f[..2] != "%s";
      assert f[1..] == prefix[1..] + "%s";
      SprintfAtEnd(prefix[1..], arg);
    }
  }

  lemma NoVerbConcat(a: string, b: string)
    requires NoVerb(a) && NoVerb(b)
    ensures NoVerb(a + b)
  {
    assert forall c :: c in a + b ==> c in a || c in b;
  }

  /** The caption each SMS template puts between the header and the code. */
  function OtpCaption(otpType: OtpType): string
  {
    if otpType == AdminSignupKeyOtpType then "Admin Signup key: "
    else if otpType == SignupOtpType then "Signup code:\n"
    else if otpType == SigninOtpType then "Signin code:\n"
    else if otpType == ChangePasswordOtpType then "Change password code:\n"
    else if otpType == ChangePhoneOtpType then "Change phone code:\n"
    else "Delete account code:\n"
  }

  /** The OTP types with an entry in otpMessages. */
  predicate HasSmsTemplate(otpType: OtpType)
  {
    otpType in [AdminSignupKeyOtpType, SignupOtpType, SigninOtpType, ChangePasswordOtpType, ChangePhoneOtpType, DeleteAccountOtpType]
  }

  lemma HeaderNoVerb()
    ensures NoVerb(OtpMessageHeader)
  {
    assert NoVerb(HeaderTitle) && NoVerb(HeaderWarning) && NoVerb(HeaderWarningEnd);
    NoVerbConcat(HeaderTitle, HeaderWarning);
    NoVerbConcat(HeaderTitle + HeaderWarning, HeaderWarningEnd);
  }

  lemma TemplateShape(otpType: OtpType)
    requires HasSmsTemplate(otpType)
    ensures OtpMessage(otpType) == (OtpMessageHeader + OtpCaption(otpType)) + "%s"
    ensures NoVerb(OtpCaption(otpType))
  {
    var c := OtpCaption(otpType);
    assert (OtpMessageHeader + c) + "%s" == OtpMessageHeader + (c + "%s");
    if otpType == AdminSignupKeyOtpType {
      assert c + "%s" == "Admin Signup key: %s";
      assert NoVerb(c);
    } else if otpType == SignupOtpType {
      assert c + "%s" == "Signup code:\n%s";
      assert NoVerb(c);
    } else if otpType == SigninOtpType {
      assert c + "%s" == "Signin code:\n%s";
      assert NoVerb(c);
    } else if otpType == ChangePasswordOtpType {
      assert c + "%s" == "Change password code:\n%s";
      assert NoVerb(c);
    } else if otpType == ChangePhoneOtpType {
      assert c + "%s" == "Change phone code:\n%s";
      assert NoVerb(c);
    } else {
      assert c + "%s" == "Delete account code:\n%s";
      assert NoVerb(c);
    }
  }

  /** What each SMS template says once the code is filled in. */
  lemma OtpMessagesCarryCode(otpType: OtpType, code: string)
    requires HasSmsTemplate(otpType)
    ensures Sprintf1(OtpMessage(otpType), code) == OtpMessageHeader + OtpCaption(otpType) + code
  {
    TemplateShape(otpType);
    HeaderNoVerb();
    NoVerbConcat(OtpMessageHeader, OtpCaption(otpType));
    SprintfAtEnd(OtpMessageHeader + OtpCaption(otpType), code);
  }

  /** The recovery-email type has no SMS template, so the code arrives as Go's extra-argument marker. */
  lemma RecoveryEmailSms(code: string)
    ensures Sprintf1(OtpMessage(ChangeEmailOtpType), code) == "%!(EXTRA string=" + code + ")"
  {
  }

  datatype Sms = Sms(to: seq<string>, message: string)

  /** A mail; its HTML body is abstracted to the labelled token the template renders. */
  datatype Mail = Mail(to: seq<string>, subject: string, otpType: OtpType, token: string)

  class Outbox {
    var sms: seq<Sms>
    var mails: seq<Mail>
    /** The SMS provider rejects every message. */
    var smsDown: bool

    constructor ()
      ensures sms == [] && mails == [] && !smsDown
    {
      sms := [];
      mails := [];
      smsDown := false;
    }

    /** Telecom.NoReplySend to one or more numbers. */
    method SendSms(to: seq<string>, message: string) returns (r: Outcome<()>)
      modifies this
      ensures smsDown == old(smsDown) && mails == old(mails)
      ensures smsDown ==> r == Fail(TelecomError)
                          && sms == old(sms)
      ensures !smsDown ==> r == Ok(()) && sms == old(sms) + [Sms(to, message)]
    {
      if smsDown {
        return Fail(TelecomError);
      }
      sms := sms + [Sms(to, message)];
      return Ok(());
    }

    /** Mailcom.NoReplySend: its transport is stubbed to succeed. */
    method SendMail(to: seq<string>, subject: string, otpType: OtpType, token: string)
      modifies this
      ensures smsDown == old(smsDown) && sms == old(sms)
      ensures mails == old(mails) + [Mail(to, subject, otpType, token)]
    {
      mails := mails + [Mail(to, subject, otpType, token)];
    }
  }
}
