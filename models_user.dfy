/**
 * The user rows of the relational store: one table per user type, a row
 * per account, nullable contact fields and a soft-delete flag.
 */
module UserModels {
  import opened Wrappers
  import opened Errors
  import opened IoAuth
  import opened Funcs
  import Uuids
  import Validations

  /** The two implementations of the user model interface. */
  datatype Kind = AdminModel | ClientModel
  {
    function UserType(): UserType
    {
      if AdminModel? then AdminUserType else ClientUserType
    }
  }

  /** UserModelFromUserType: the model of a known user type; any other value panics. */
  function UserModelFromUserType(userType: string): (r: Outcome<Kind>)
    ensures r.Ok? <==> userType in AllUserTypes
    ensures r.Ok? ==> r.value.UserType() == userType
    ensures !r.Ok? ==> r == Crash("unknown userType")
  {
    if userType == AdminUserType then Ok(AdminModel)
    else if userType == ClientUserType then Ok(ClientModel)
    else Crash("unknown userType")
  }

  /** The columns of a user row; times are seconds on the logical clock. */
  datatype Row = Row(
    id: Uuids.Uuid, username: string, name: string, hasAvatar: bool,
    phoneNumber: Option<string>, email: Option<string>, password: Option<string>,
    updatedAt: int, createdAt: int, isDeleted: bool)
  {
    function GetPhoneNumber(): string { GetStringIfNotNull(phoneNumber) }

    function GetEmail(): string { GetStringIfNotNull(email) }

    function GetPassword(): string { GetStringIfNotNull(password) }
  }

  /** newBaseUserModelWithId: empty contact fields and passwords are stored as null. */
  function NewRow(id: Uuids.Uuid, username: string, name: string, phoneNumber: string, email: string,
                  password: string, hasAvatar: bool, now: int): (r: Row)
    ensures r.id == id && r.username == username && r.name == name && r.hasAvatar == hasAvatar
    ensures r.GetPhoneNumber() == phoneNumber && r.GetEmail() == email && r.GetPassword() == password
    ensures r.phoneNumber.None? <==> phoneNumber == ""
    ensures r.email.None? <==> email == ""
    ensures r.password.None? <==> password == ""
    ensures r.createdAt == r.updatedAt == now && !r.isDeleted
  {
    NullableRoundTrip(phoneNumber);
    NullableRoundTrip(email);
    NullableRoundTrip(password);
    Row(id, username, name, hasAvatar, StringSetNullIfEmpty(phoneNumber), StringSetNullIfEmpty(email),
        StringSetNullIfEmpty(password), now, now, false)
  }

  /** The avatar prefix is empty: the initialiser that would build it is commented out. */
  const S3Prefix: string := ""

  function GetAvatarUrl(id: Uuids.Uuid, userType: UserType): (url: string)
    ensures url == S3Prefix + userType + "/" + Uuids.ToString(id) + ".png"
  {
    S3Prefix + userType + "/" + Uuids.ToString(id) + ".png"
  }

  /** The last segment of an avatar URL is an object name the avatar route accepts. */
  lemma AvatarUrlObjectName(id: Uuids.Uuid, userType: UserType)
    ensures GetAvatarUrl(id, userType) == S3Prefix + userType + "/" + (Uuids.ToString(id) + ".png")
    ensures Validations.AvatarObjectNameValidator(Uuids.ToString(id) + ".png")
  {
    Validations.AvatarObjectNameOfId(id);
  }

  /**
   * ToUser as written, and as the flows use it: the public record of a row,
   * with the avatar URL only when the row has an avatar; the client model
   * leaves the username out.
   */
  function ToUserAsWritten(k: Kind, row: Row): (u: User)
    ensures u.id == row.id && u.name == row.name && u.userType == k.UserType()
    ensures u.username == if k.AdminModel? then row.username else ""
    ensures u.avatar != "" <==> row.hasAvatar
    ensures row.hasAvatar ==> u.avatar == GetAvatarUrl(row.id, k.UserType())
  {
    var avatar := if row.hasAvatar then GetAvatarUrl(row.id, k.UserType()) else "";
    match k
    case AdminModel => User(row.id, row.username, row.name, avatar, AdminUserType)
    case ClientModel => User(row.id, "", row.name, avatar, ClientUserType)
  }

  /** ToUser as evidently intended: both models copy the username. */
  function ToUser(k: Kind, row: Row): (u: User)
    ensures u.id == row.id && u.username == row.username && u.name == row.name && u.userType == k.UserType()
    ensures u.avatar != "" <==> row.hasAvatar
    ensures row.hasAvatar ==> u.avatar == GetAvatarUrl(row.id, k.UserType())
    ensures u == ToUserAsWritten(k, row).(username := row.username)
  {
    User(row.id, row.username, row.name, if row.hasAvatar then GetAvatarUrl(row.id, k.UserType()) else "", k.UserType())
  }

  /** A client's user record, as written, has an empty username however the row is named. */
  lemma ClientUsernameDropped(row: Row)
    requires row.username != ""
    ensures ToUserAsWritten(ClientModel, row).username == ""
    ensures ToUserAsWritten(ClientModel, row).username != ToUser(ClientModel, row).username
  {
  }

  /** Delete: email to null, the flag set, updated_at refreshed; nothing else. */
  function Deleted(row: Row, now: int): (r: Row)
    ensures r.isDeleted && r.GetEmail() == ""
    ensures r.GetPhoneNumber() == row.GetPhoneNumber() && r.GetPassword() == row.GetPassword()
    ensures r.id == row.id && r.username == row.username && r.name == row.name && r.hasAvatar == row.hasAvatar
    ensures r.createdAt == row.createdAt && r.updatedAt == now
  {
    row.(email := None, isDeleted := true, updatedAt := now)
  }
}
