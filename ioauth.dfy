/**
 * The wire types of the authentication API: the user, JWT and OTP type
 * enumerations, the request and response records, and the session (Login)
 * a successful sign-in produces.
 */
module IoAuth {
  import opened Wrappers
  import opened Uuids

  type JwtType = string

  const AccessJwtType: JwtType := "access"
  const RefreshJwtType: JwtType := "refresh"
  const JwtTypes: seq<JwtType> := [AccessJwtType, RefreshJwtType]

  type UserType = string

  const AdminUserType: UserType := "admin"
  const ClientUserType: UserType := "client"
  const AllUserTypes: seq<UserType> := [AdminUserType, ClientUserType]

  type OtpType = string

  /** Used only to label the admin sign-up key message. */
  const AdminSignupKeyOtpType: OtpType := "admin-signup-key"
  const SignupOtpType: OtpType := "sign-up"
  const SigninOtpType: OtpType := "sign-in"
  const ChangePasswordOtpType: OtpType := "change-password"
  const ChangePhoneOtpType: OtpType := "change-phone"
  const DeleteAccountOtpType: OtpType := "delete-account"
  const ChangeEmailOtpType: OtpType := "change-recovery-email"

  /** The OTP types a client may request. */
  const OtpTypes: seq<OtpType> :=
    [SignupOtpType, SigninOtpType, ChangePasswordOtpType, ChangePhoneOtpType,
     DeleteAccountOtpType, ChangeEmailOtpType]

  lemma OtpTypesShape()
    ensures |OtpTypes| == 6
    ensures forall i, j :: 0 <= i < j < |OtpTypes| ==> OtpTypes[i] != OtpTypes[j]
    ensures AdminSignupKeyOtpType !in OtpTypes
  {
  }

  lemma EnumerationsShape()
    ensures (set t | t in AllUserTypes) == {"admin", "client"}
    ensures (set t | t in JwtTypes) == {"access", "refresh"}
  {
  }

  datatype AuthCheckPostRequest = AuthCheckPostRequest(username: string, userType: UserType)

  datatype AuthCheckPostResponse = AuthCheckPostResponse(
    exist: bool, deleted: bool, hasEmail: bool, hasPhoneNumber: bool, hasPassword: bool)

  datatype AuthMethodOtpGetRequest = AuthMethodOtpGetRequest(
    username: string, sendToEmail: bool, sendToPhone: bool, email: string,
    phoneNumber: string, otpType: OtpType, userType: UserType)

  datatype AuthMethodOtpGetResponse = AuthMethodOtpGetResponse(maskedPhone: string, maskedEmail: string)

  datatype AuthSignupKeyGetRequest = AuthSignupKeyGetRequest(email: string, phoneNumber: string, userType: UserType)

  datatype AuthSignupPostRequest = AuthSignupPostRequest(
    username: string, name: string, avatar: string, phoneNumber: string, email: string,
    userType: UserType, password: string, token: string, key: string)

  datatype AuthSigninPostRequest = AuthSigninPostRequest(
    username: string, sentToEmail: bool, sentToPhone: bool, userType: UserType, token: string)

  datatype AuthSigninPasswordPostRequest = AuthSigninPasswordPostRequest(
    username: string, userType: UserType, password: string)

  datatype AuthResetPasswordPostRequest = AuthResetPasswordPostRequest(
    username: string, sentToEmail: bool, sentToPhone: bool, password: string,
    userType: UserType, token: string)

  datatype AuthResetPhonePostRequest = AuthResetPhonePostRequest(
    id: Uuid, phoneNumber: string, userType: UserType, token: string)

  datatype AuthResetEmailPostRequest = AuthResetEmailPostRequest(
    id: Uuid, email: string, userType: UserType, token: string)

  datatype UserGetRequest = UserGetRequest(id: Uuid, userType: UserType)

  datatype UserPutRequest = UserPutRequest(
    id: Uuid, username: string, name: string, avatar: string, userType: UserType)

  datatype UserPutResponse = UserPutResponse(avatar: string)

  datatype UserDeleteRequest = UserDeleteRequest(id: Uuid, userType: UserType, token: string)

  /** The public view of an account. */
  datatype User = User(id: Uuid, username: string, name: string, avatar: string, userType: UserType)

  /** A token pair with the lifetimes, in minutes, it was minted with. */
  datatype Jwt = Jwt(accessToken: string, refreshToken: string, accessExpires: int, refreshExpires: int)

  /** A session: the user and, once tokens are minted, the token pair. */
  class Login {
    var user: User
    var jwt: Option<Jwt>

    constructor (u: User)
      ensures user == u && jwt == None
    {
      user := u;
      jwt := None;
    }
  }
}
