/**
 * The relational store of accounts: one table per user type, keyed by id,
 * with unique usernames, soft deletion and a cap on how many rows may share
 * a phone number or an email address. Each method is one transaction: it
 * either commits all of its writes or none.
 *
 * The cap queries `Where(...).Count(&count)` name neither a model nor a
 * table. gorm then has nothing to take the table from, and the statement
 * fails with its "Table not set" error before reaching the database: as
 * written, every cap check ends in that internal error, connected or not,
 * and so does every phone or email update that finds its row. The count
 * over both tables is kept as the evidently intended reading
 * (ContactLimitCorrected).
 */
module Relational {
  import opened Wrappers
  import opened GoStrings
  import opened Errors
  import opened IoAuth
  import opened Funcs
  import opened UserModels
  import opened Clocks
  import opened Uuids

  const RelationalCaller: string := "repository.Relational"

  const ConnectionLost: string := "driver: bad connection"
  const UniqueViolation: string := "duplicate key value violates unique constraint"
  /** gorm's refusal of a statement with no model and no table. */
  const TableNotSet: string := "unsupported data type: Table not set, please set it like: db.Model(&user) or db.Table(\"users\")"

  /** An error the database driver returns, as FuncPipe wraps it. */
  function DbError(caller: string, text: string): (e: ErrorValue)
    ensures e.isInternal && e.callers == [caller]
    ensures RightTrimmedOf(e.message, text, Punctuation)
  {
    FuncPipe(caller, Some(Plain(text))).value
  }

  /** The two contact columns whose use is capped. */
  datatype Column = EmailColumn | PhoneColumn

  function LimitCaller(c: Column): string
  {
    RelationalCaller + (if c.EmailColumn? then ".CheckUserEmailLimit" else ".CheckUserPhoneLimit")
  }

  /** The refusal of a contact already on `limit` rows, with the column's reason key. */
  function TakenByMultiple(c: Column, contact: string): (e: ErrorValue)
    ensures !e.isInternal
    ensures c.EmailColumn? ==> e == Template(EmailIsTakenByMultipleAppCode).WithReason("email", contact)
    ensures c.PhoneColumn? ==> e == Template(PhoneNumberIsTakenByMultipleAppCode).WithReason("phone_number", contact)
  {
    if c.EmailColumn? then Template(EmailIsTakenByMultipleAppCode).WithReason("email", contact)
    else Template(PhoneNumberIsTakenByMultipleAppCode).WithReason("phone_number", contact)
  }

  /**
   * CheckUserEmailLimit and CheckUserPhoneLimit as written: the count
   * names no table, so gorm refuses the statement while parsing it, before
   * any connection is used; the cap fails for every contact.
   */
  function ContactLimit(c: Column, contact: string): (r: Outcome<()>)
    ensures r.Fail? && r.err.isInternal && r.err.callers == [LimitCaller(c)]
    ensures RightTrimmedOf(r.err.message, TableNotSet, Punctuation)
  {
    Fail(DbError(LimitCaller(c), TableNotSet))
  }

  /**
   * USER_BACK_MAXIMUM_REFERENCE read at start-up: unset gives 10, a base-10
   * int64 gives its value, and anything else panics (None).
   */
  function MaximumReference(env: string): (r: Option<int>)
    ensures env == "" ==> r == Some(10)
    ensures env != "" ==> (r.Some? <==> ParseDecimal(env).Some?)
    ensures env != "" && r.Some? ==> r == ParseDecimal(env)
  {
    if env == "" then Some(10) else ParseDecimal(env)
  }

  function KindOf(userType: UserType): (k: Kind)
    requires userType in AllUserTypes
    ensures k.UserType() == userType
  {
    UserModelFromUserType(userType).value
  }

  /** A lookup result: the row if live, and whether the row found is soft-deleted. */
  datatype Fetch = Fetch(kind: Kind, user: Option<Row>, isDeleted: bool)

  /** What GetUserById and GetUserByUsername report for the row the query found. */
  function Visible(k: Kind, row: Option<Row>): (f: Fetch)
    ensures f.kind == k
    ensures f.isDeleted <==> row.Some? && row.value.isDeleted
    ensures f.user.Some? <==> row.Some? && !row.value.isDeleted
    ensures f.user.Some? ==> f.user == row && !f.isDeleted
  {
    if row.None? then Fetch(k, None, false)
    else if row.value.isDeleted then Fetch(k, None, true)
    else Fetch(k, row, false)
  }

  predicate WellKeyed(t: map<Uuid, Row>)
  {
    forall id :: id in t ==> t[id].id == id
  }

  predicate UniqueUsernames(t: map<Uuid, Row>)
  {
    forall a, b :: a in t && b in t && t[a].username == t[b].username ==> a == b
  }

  /** The id of the row with this username, deleted or not. */
  ghost function UsernameKey(t: map<Uuid, Row>, username: string): (k: Option<Uuid>)
    ensures k.Some? ==> k.value in t && t[k.value].username == username
    ensures k.None? ==> forall id :: id in t ==> t[id].username != username
  {
    if exists id :: id in t && t[id].username == username then
      var id :| id in t && t[id].username == username; Some(id)
    else None
  }

  /** `WHERE username = ?` followed by First. */
  ghost function ByUsername(t: map<Uuid, Row>, username: string): (r: Option<Row>)
    ensures r.Some? <==> exists id :: id in t && t[id].username == username
    ensures r.Some? ==> r.value.username == username && r.value in t.Values
  {
    match UsernameKey(t, username)
    case Some(id) => Some(t[id])
    case None => None
  }

  /** The query behind UsernameKey; the unique index makes its answer the only one. */
  method FindUsername(t: map<Uuid, Row>, username: string) returns (k: Option<Uuid>)
    requires UniqueUsernames(t)
    ensures k == UsernameKey(t, username)
  {
    if exists id :: id in t && t[id].username == username {
      var id :| id in t && t[id].username == username;
      k := Some(id);
    } else {
      k := None;
    }
  }

  method FindByUsername(t: map<Uuid, Row>, username: string) returns (r: Option<Row>)
    requires UniqueUsernames(t)
    ensures r == ByUsername(t, username)
  {
    var k := FindUsername(t, username);
    r := if k.Some? then Some(t[k.value]) else None;
  }

  /** `WHERE id = ?` followed by First. */
  function ById(t: map<Uuid, Row>, id: Uuid): Option<Row>
  {
    if id in t then Some(t[id]) else None
  }

  /** The row found by name sits under its own id. */
  lemma ByUsernameKey(t: map<Uuid, Row>, username: string)
    requires WellKeyed(t)
    ensures ByUsername(t, username).Some? ==> UsernameKey(t, username) == Some(ByUsername(t, username).value.id)
  {
  }

  /** With unique usernames, the row found by name is the one stored under its id. */
  lemma ByUsernameUnique(t: map<Uuid, Row>, id: Uuid)
    requires WellKeyed(t) && UniqueUsernames(t) && id in t
    ensures ByUsername(t, t[id].username) == Some(t[id])
  {
  }

  function PhoneCountIn(t: map<Uuid, Row>, phone: string): (n: nat)
    ensures n == 0 <==> forall id :: id in t ==> t[id].phoneNumber != Some(phone)
  {
    var ids := set id | id in t && t[id].phoneNumber == Some(phone);
    assert ids == {} ==> forall id :: id in t ==> t[id].phoneNumber != Some(phone) by {
      forall id | id in t && t[id].phoneNumber == Some(phone) ensures ids != {} { assert id in ids; }
    }
    |ids|
  }

  function EmailCountIn(t: map<Uuid, Row>, email: string): (n: nat)
    ensures n == 0 <==> forall id :: id in t ==> t[id].email != Some(email)
  {
    var ids := set id | id in t && t[id].email == Some(email);
    assert ids == {} ==> forall id :: id in t ==> t[id].email != Some(email) by {
      forall id | id in t && t[id].email == Some(email) ensures ids != {} { assert id in ids; }
    }
    |ids|
  }

  /** UserExists' answer for the row found by username, and whether it is deleted. */
  function ExistsResponse(row: Option<Row>): (r: (AuthCheckPostResponse, bool))
    ensures r.0.exist <==> row.Some?
    ensures r.0.deleted <==> r.1
    ensures r.1 <==> row.Some? && row.value.isDeleted
    ensures r.0.hasEmail <==> row.Some? && !row.value.isDeleted && row.value.GetEmail() != ""
    ensures r.0.hasPhoneNumber <==> row.Some? && !row.value.isDeleted && row.value.GetPhoneNumber() != ""
    ensures r.0.hasPassword <==> row.Some? && !row.value.isDeleted && row.value.GetPassword() != ""
  {
    match row
    case None => (AuthCheckPostResponse(false, false, false, false, false), false)
    case Some(u) =>
      if u.isDeleted then (AuthCheckPostResponse(true, true, false, false, false), true)
      else (AuthCheckPostResponse(true, false, u.GetEmail() != "", u.GetPhoneNumber() != "", u.GetPassword() != ""), false)
  }

  /** The row CreateUser inserts under `id` at time `now`, with the password hashed under `salt`. */
  function CreatedRow(req: AuthSignupPostRequest, id: Uuid, salt: string, nonce: char, now: int): Row
  {
    NewRow(id, req.username, req.name, req.phoneNumber, req.email, HashPassword(req.password, salt, nonce), req.avatar != "", now)
  }

  class Relational {
    var admins: map<Uuid, Row>
    var clients: map<Uuid, Row>
    /** Plain queries (First, Count outside a transaction) fail: the database cannot be reached for them. */
    var down: bool
    /**
     * Transactions fail at Begin. Kept apart from `down` so that a write may
     * fail after a read in the same flow succeeded, as two separate network
     * calls can.
     */
    var txDown: bool
    /** The contact cap, from MaximumReference. */
    const limit: int
    /** The pepper appended to passwords before hashing. */
    const salt: string
    const clock: Clock

    constructor (limit: int, salt: string, clock: Clock)
      ensures admins == map[] && clients == map[] && !down && !txDown
      ensures this.limit == limit && this.salt == salt && this.clock == clock
      ensures Valid()
    {
      admins := map[];
      clients := map[];
      down := false;
      txDown := false;
      this.limit := limit;
      this.salt := salt;
      this.clock := clock;
    }

    function Table(k: Kind): map<Uuid, Row>
      reads this
    {
      if k.AdminModel? then admins else clients
    }

    /** The account a flow keyed on an id acts on: a deleted row is reported, a missing one with its id. */
    ghost function AccountById(id: Uuid, userType: UserType): Outcome<(Kind, Row)>
      reads this
    {
      if userType !in AllUserTypes then Crash("unknown userType")
      else if down then Fail(DbError(RelationalCaller + ".GetUserById", ConnectionLost))
      else
        var k := KindOf(userType);
        var row := ById(Table(k), id);
        if row.Some? && row.value.isDeleted then Fail(Template(UserDeletedAppCode))
        else if row.None? then Fail(Template(UserNotFoundAppCode).WithReason("id", ToString(id)))
        else Ok((k, row.value))
    }

    /** The database's own guarantees: rows sit under their ids and usernames are unique per table. */
    ghost predicate Valid()
      reads this
    {
      WellKeyed(admins) && WellKeyed(clients) && UniqueUsernames(admins) && UniqueUsernames(clients)
    }

    /** `WHERE phone_number = ?` counted over the user tables. */
    function PhoneCount(phone: string): (n: nat)
      reads this
      ensures n == 0 <==> (forall id :: id in admins ==> admins[id].phoneNumber != Some(phone))
                          && (forall id :: id in clients ==> clients[id].phoneNumber != Some(phone))
    {
      PhoneCountIn(admins, phone) + PhoneCountIn(clients, phone)
    }

    function EmailCount(email: string): (n: nat)
      reads this
      ensures n == 0 <==> (forall id :: id in admins ==> admins[id].email != Some(email))
                          && (forall id :: id in clients ==> clients[id].email != Some(email))
    {
      EmailCountIn(admins, email) + EmailCountIn(clients, email)
    }

    /** Commit a new version of one table. */
    method Write(k: Kind, t: map<Uuid, Row>)
      modifies this
      ensures Table(k) == t && Table(if k.AdminModel? then ClientModel else AdminModel) == old(Table(if k.AdminModel? then ClientModel else AdminModel))
      ensures down == old(down) && txDown == old(txDown)
    {
      if k.AdminModel? { admins := t; } else { clients := t; }
    }

    method UserExists(req: AuthCheckPostRequest) returns (r: Outcome<(AuthCheckPostResponse, bool)>)
      requires Valid()
      ensures req.userType !in AllUserTypes ==> r == Crash("unknown userType")
      ensures req.userType in AllUserTypes && down ==> r == Fail(DbError(RelationalCaller + ".UserExists", ConnectionLost))
      ensures req.userType in AllUserTypes && !down ==> r == Ok(ExistsResponse(ByUsername(Table(KindOf(req.userType)), req.username)))
    {
      var m := UserModelFromUserType(req.userType);
      if !m.Ok? { return Crash("unknown userType"); }
      if down { return Fail(DbError(RelationalCaller + ".UserExists", ConnectionLost)); }
      var row := FindByUsername(Table(m.value), req.username);
      return Ok(ExistsResponse(row));
    }

    method UserExistsById(id: Uuid, userType: UserType) returns (r: Outcome<(bool, bool)>)
      ensures userType !in AllUserTypes ==> r == Crash("unknown userType")
      ensures userType in AllUserTypes && down ==> r == Fail(DbError(RelationalCaller + ".UserExistsById", ConnectionLost))
      ensures userType in AllUserTypes && !down ==>
                r == Ok((id in Table(KindOf(userType)), id in Table(KindOf(userType)) && Table(KindOf(userType))[id].isDeleted))
    {
      var m := UserModelFromUserType(userType);
      if !m.Ok? { return Crash("unknown userType"); }
      if down { return Fail(DbError(RelationalCaller + ".UserExistsById", ConnectionLost)); }
      var t := Table(m.value);
      return Ok((id in t, id in t && t[id].isDeleted));
    }

    method GetUserById(id: Uuid, userType: UserType) returns (r: Outcome<Fetch>)
      ensures userType !in AllUserTypes ==> r == Crash("unknown userType")
      ensures userType in AllUserTypes && down ==> r == Fail(DbError(RelationalCaller + ".GetUserById", ConnectionLost))
      ensures userType in AllUserTypes && !down ==> r == Ok(Visible(KindOf(userType), ById(Table(KindOf(userType)), id)))
    {
      var m := UserModelFromUserType(userType);
      if !m.Ok? { return Crash("unknown userType"); }
      if down { return Fail(DbError(RelationalCaller + ".GetUserById", ConnectionLost)); }
      return Ok(Visible(m.value, ById(Table(m.value), id)));
    }

    method GetUserByUsername(username: string, userType: UserType) returns (r: Outcome<Fetch>)
      requires Valid()
      ensures userType !in AllUserTypes ==> r == Crash("unknown userType")
      ensures userType in AllUserTypes && down ==> r == Fail(DbError(RelationalCaller + ".GetUserByUsername", ConnectionLost))
      ensures userType in AllUserTypes && !down ==> r == Ok(Visible(KindOf(userType), ByUsername(Table(KindOf(userType)), username)))
    {
      var m := UserModelFromUserType(userType);
      if !m.Ok? { return Crash("unknown userType"); }
      if down { return Fail(DbError(RelationalCaller + ".GetUserByUsername", ConnectionLost)); }
      var row := FindByUsername(Table(m.value), username);
      return Ok(Visible(m.value, row));
    }

    /** AuthUserPassword: looks the row up by name without hiding deleted rows. */
    method AuthUserPassword(req: AuthSigninPasswordPostRequest) returns (r: Outcome<User>)
      requires Valid()
      ensures req.userType !in AllUserTypes ==> r == Crash("unknown userType")
      ensures req.userType in AllUserTypes && down ==> r == Fail(DbError(RelationalCaller + ".AuthUserPassword", ConnectionLost))
      ensures req.userType in AllUserTypes && !down ==>
                var row := ByUsername(Table(KindOf(req.userType)), req.username);
                r == if row.None? then Fail(Template(UsernameNotFoundAppCode).WithReason("username", req.username).WithCaller(RelationalCaller + ".AuthUserPassword"))
                     else if !VerifyPassword(row.value.GetPassword(), req.password, salt) then Fail(Template(PasswordIncorrectAppCode).WithCaller(RelationalCaller + ".AuthUserPassword"))
                     else Ok(ToUserAsWritten(KindOf(req.userType), row.value))
    {
      var m := UserModelFromUserType(req.userType);
      if !m.Ok? { return Crash("unknown userType"); }
      if down { return Fail(DbError(RelationalCaller + ".AuthUserPassword", ConnectionLost)); }
      var row := FindByUsername(Table(m.value), req.username);
      if row.None? {
        return Fail(Template(UsernameNotFoundAppCode).WithReason("username", req.username).WithCaller(RelationalCaller + ".AuthUserPassword"));
      }
      if !VerifyPassword(row.value.GetPassword(), req.password, salt) {
        return Fail(Template(PasswordIncorrectAppCode).WithCaller(RelationalCaller + ".AuthUserPassword"));
      }
      return Ok(ToUserAsWritten(m.value, row.value));
    }

    /** What CreateUser needs to insert: a known user type, a database that accepts transactions, a free username and a free id. */
    ghost predicate CanCreate(req: AuthSignupPostRequest, id: Uuid)
      reads this
    {
      req.userType in AllUserTypes && !txDown
      && ByUsername(Table(KindOf(req.userType)), req.username).None? && id !in Table(KindOf(req.userType))
    }

    /**
     * CreateUser: rejects a username present in the table, even on a deleted
     * row; otherwise inserts a row under `forceId` if given, else under
     * `freshId` (uuid.New), with the hashed password and has_avatar set iff an
     * avatar was sent. `nonce` stands for the hash's random salt.
     */
    method CreateUser(req: AuthSignupPostRequest, forceId: Option<Uuid>, freshId: Uuid, nonce: char)
      returns (r: Outcome<User>)
      requires Valid()
      modifies this
      ensures Valid() && down == old(down) && txDown == old(txDown)
      ensures req.userType !in AllUserTypes ==> r == Crash("unknown userType") && unchanged(this)
      ensures req.userType in AllUserTypes ==>
        var k := KindOf(req.userType);
        var id := forceId.UnwrapOr(freshId);
        var row := NewRow(id, req.username, req.name, req.phoneNumber, req.email,
                          HashPassword(req.password, salt, nonce), req.avatar != "", clock.now);
        if old(txDown) then
          r == Fail(DbError(RelationalCaller + ".CreateUser", ConnectionLost)) && unchanged(this)
        else if ByUsername(old(Table(k)), req.username).Some? then
          r == Fail(Template(UsernameAlreadyExistsAppCode).WithReason("username", req.username).WithCaller(RelationalCaller + ".CreateUser"))
          && unchanged(this)
        else if id in old(Table(k)) then
          r == Fail(DbError(RelationalCaller + ".CreateUser", UniqueViolation)) && unchanged(this)
        else
          r == Ok(ToUserAsWritten(k, row)) && Table(k) == old(Table(k))[id := row]
          && Table(if k.AdminModel? then ClientModel else AdminModel) == old(Table(if k.AdminModel? then ClientModel else AdminModel))
      ensures !old(CanCreate(req, forceId.UnwrapOr(freshId))) ==> !r.Ok? && unchanged(this)
      ensures old(CanCreate(req, forceId.UnwrapOr(freshId))) ==>
        var k := KindOf(req.userType);
        var row := CreatedRow(req, forceId.UnwrapOr(freshId), salt, nonce, clock.now);
        r == Ok(ToUserAsWritten(k, row)) && Table(k) == old(Table(k))[forceId.UnwrapOr(freshId) := row]
        && Table(if k.AdminModel? then ClientModel else AdminModel) == old(Table(if k.AdminModel? then ClientModel else AdminModel))
    {
      var m := UserModelFromUserType(req.userType);
      if !m.Ok? { return Crash("unknown userType"); }
      var k := m.value;
      if txDown { return Fail(DbError(RelationalCaller + ".CreateUser", ConnectionLost)); }
      var t := Table(k);
      var taken := FindByUsername(t, req.username);
      if taken.Some? {
        return Fail(Template(UsernameAlreadyExistsAppCode).WithReason("username", req.username).WithCaller(RelationalCaller + ".CreateUser"));
      }
      var hashed := HashPassword(req.password, salt, nonce);
      var id := forceId.UnwrapOr(freshId);
      if id in t {
        return Fail(DbError(RelationalCaller + ".CreateUser", UniqueViolation));
      }
      var row := NewRow(id, req.username, req.name, req.phoneNumber, req.email, hashed, req.avatar != "", clock.now);
      Write(k, t[id := row]);
      return Ok(ToUserAsWritten(k, row));
    }

    /**
     * The shared shape of the updates by id: find the row (deleted or not),
     * check, write. The user type is resolved inside the transaction, so an
     * unreachable database fails at Begin before an unknown type panics.
     */
    method UpdateUserPasswordById(id: Uuid, userType: UserType, password: string, nonce: char) returns (r: Outcome<()>)
      requires Valid()
      modifies this
      ensures Valid() && down == old(down) && txDown == old(txDown)
      ensures old(txDown) ==> r == Fail(DbError(RelationalCaller + ".UpdateUserPasswordById", ConnectionLost)) && unchanged(this)
      ensures !old(txDown) && userType !in AllUserTypes ==> r == Crash("unknown userType") && unchanged(this)
      ensures !old(txDown) && userType in AllUserTypes ==>
        var k := KindOf(userType);
        if id !in old(Table(k)) then
          r == Fail(Template(UserNotFoundAppCode).WithReason("id", ToString(id)).WithCaller(RelationalCaller + ".UpdateUserPasswordById"))
          && unchanged(this)
        else
          r == Ok(()) && Table(k) == old(Table(k))[id := old(Table(k))[id].(password := Some(HashPassword(password, salt, nonce)), updatedAt := clock.now)]
          && Table(if k.AdminModel? then ClientModel else AdminModel) == old(Table(if k.AdminModel? then ClientModel else AdminModel))
    {
      var hashed := HashPassword(password, salt, nonce);
      if txDown { return Fail(DbError(RelationalCaller + ".UpdateUserPasswordById", ConnectionLost)); }
      var m := UserModelFromUserType(userType);
      if !m.Ok? { return Crash("unknown userType"); }
      var k := m.value;
      var t := Table(k);
      if id !in t {
        return Fail(Template(UserNotFoundAppCode).WithReason("id", ToString(id)).WithCaller(RelationalCaller + ".UpdateUserPasswordById"));
      }
      Write(k, t[id := t[id].(password := Some(hashed), updatedAt := clock.now)]);
      return Ok(());
    }

    method UpdateUserPasswordByUsername(username: string, userType: UserType, password: string, nonce: char)
      returns (r: Outcome<()>)
      requires Valid()
      modifies this
      ensures Valid() && down == old(down) && txDown == old(txDown)
      ensures old(txDown) ==> r == Fail(DbError(RelationalCaller + ".UpdateUserPasswordByUsername", ConnectionLost)) && unchanged(this)
      ensures !old(txDown) && userType !in AllUserTypes ==> r == Crash("unknown userType") && unchanged(this)
      ensures !old(txDown) && userType in AllUserTypes ==>
        var k := KindOf(userType);
        if UsernameKey(old(Table(k)), username).None? then
          r == Fail(Template(UsernameNotFoundAppCode).WithReason("username", username).WithCaller(RelationalCaller + ".UpdateUserPasswordByUsername"))
          && unchanged(this)
        else
          var id := UsernameKey(old(Table(k)), username).value;
          r == Ok(()) && Table(k) == old(Table(k))[id := old(Table(k))[id].(password := Some(HashPassword(password, salt, nonce)), updatedAt := clock.now)]
          && Table(if k.AdminModel? then ClientModel else AdminModel) == old(Table(if k.AdminModel? then ClientModel else AdminModel))
    {
      var hashed := HashPassword(password, salt, nonce);
      if txDown { return Fail(DbError(RelationalCaller + ".UpdateUserPasswordByUsername", ConnectionLost)); }
      var m := UserModelFromUserType(userType);
      if !m.Ok? { return Crash("unknown userType"); }
      var k := m.value;
      var t := Table(k);
      var key := FindUsername(t, username);
      if key.None? {
        return Fail(Template(UsernameNotFoundAppCode).WithReason("username", username).WithCaller(RelationalCaller + ".UpdateUserPasswordByUsername"));
      }
      var id := key.value;
      Write(k, t[id := t[id].(password := Some(hashed), updatedAt := clock.now)]);
      return Ok(());
    }

    /** Only username, name, has_avatar and updated_at change; a username taken by another row violates the unique index. */
    method UpdateUserProfileById(id: Uuid, username: string, name: string, avatar: string, userType: UserType)
      returns (r: Outcome<()>)
      requires Valid()
      modifies this
      ensures Valid() && down == old(down) && txDown == old(txDown)
      ensures old(txDown) ==> r == Fail(DbError(RelationalCaller + ".UpdateUserProfileById", ConnectionLost)) && unchanged(this)
      ensures !old(txDown) && userType !in AllUserTypes ==> r == Crash("unknown userType") && unchanged(this)
      ensures !old(txDown) && userType in AllUserTypes ==>
        var k := KindOf(userType);
        if id !in old(Table(k)) then
          r == Fail(Template(UserNotFoundAppCode).WithReason("id", ToString(id)).WithCaller(RelationalCaller + ".UpdateUserProfileById"))
          && unchanged(this)
        else if exists other :: other in old(Table(k)) && other != id && old(Table(k))[other].username == username then
          r == Fail(DbError(RelationalCaller + ".UpdateUserProfileById", UniqueViolation)) && unchanged(this)
        else
          r == Ok(()) && Table(k) == old(Table(k))[id := old(Table(k))[id].(username := username, name := name, hasAvatar := avatar != "", updatedAt := clock.now)]
          && Table(if k.AdminModel? then ClientModel else AdminModel) == old(Table(if k.AdminModel? then ClientModel else AdminModel))
    {
      if txDown { return Fail(DbError(RelationalCaller + ".UpdateUserProfileById", ConnectionLost)); }
      var m := UserModelFromUserType(userType);
      if !m.Ok? { return Crash("unknown userType"); }
      var k := m.value;
      var t := Table(k);
      if id !in t {
        return Fail(Template(UserNotFoundAppCode).WithReason("id", ToString(id)).WithCaller(RelationalCaller + ".UpdateUserProfileById"));
      }
      if exists other :: other in t && other != id && t[other].username == username {
        return Fail(DbError(RelationalCaller + ".UpdateUserProfileById", UniqueViolation));
      }
      Write(k, t[id := t[id].(username := username, name := name, hasAvatar := avatar != "", updatedAt := clock.now)]);
      return Ok(());
    }

    /**
     * DeleteUserById: the model's Delete updates by id; an update that
     * matches no row is not an error, so a missing id commits nothing and
     * succeeds. An unreachable database fails at Begin, before the model's
     * Delete adds its own caller.
     */
    method DeleteUserById(id: Uuid, userType: UserType) returns (r: Outcome<()>)
      requires Valid()
      modifies this
      ensures Valid() && down == old(down) && txDown == old(txDown)
      ensures old(txDown) ==> r == Fail(DbError(RelationalCaller + ".DeleteUserById", ConnectionLost)) && unchanged(this)
      ensures !old(txDown) && userType !in AllUserTypes ==> r == Crash("unknown userType") && unchanged(this)
      ensures !old(txDown) && userType in AllUserTypes ==>
        var k := KindOf(userType);
        if id !in old(Table(k)) then r == Ok(()) && unchanged(this)
        else
          r == Ok(()) && Table(k) == old(Table(k))[id := Deleted(old(Table(k))[id], clock.now)]
          && Table(if k.AdminModel? then ClientModel else AdminModel) == old(Table(if k.AdminModel? then ClientModel else AdminModel))
    {
      if txDown { return Fail(DbError(RelationalCaller + ".DeleteUserById", ConnectionLost)); }
      var m := UserModelFromUserType(userType);
      if !m.Ok? { return Crash("unknown userType"); }
      var k := m.value;
      var t := Table(k);
      if id in t {
        Write(k, t[id := Deleted(t[id], clock.now)]);
      }
      return Ok(());
    }

    /**
     * UpdateUserPhoneById: the row is looked up by id, deleted or not; the
     * table-less count that follows fails, so the transaction rolls back
     * and no phone number is ever written.
     */
    method UpdateUserPhoneById(id: Uuid, userType: UserType, phoneNumber: string) returns (r: Outcome<()>)
      ensures unchanged(this)
      ensures txDown ==> r == Fail(DbError(RelationalCaller + ".UpdateUserPhoneById", ConnectionLost))
      ensures !txDown && userType !in AllUserTypes ==> r == Crash("unknown userType")
      ensures !txDown && userType in AllUserTypes ==>
        if id !in Table(KindOf(userType)) then
          r == Fail(Template(UserNotFoundAppCode).WithReason("id", ToString(id)).WithCaller(RelationalCaller + ".UpdateUserPhoneById"))
        else r == Fail(DbError(RelationalCaller + ".UpdateUserPhoneById", TableNotSet))
    {
      if txDown { return Fail(DbError(RelationalCaller + ".UpdateUserPhoneById", ConnectionLost)); }
      var m := UserModelFromUserType(userType);
      if !m.Ok? { return Crash("unknown userType"); }
      if id !in Table(m.value) {
        return Fail(Template(UserNotFoundAppCode).WithReason("id", ToString(id)).WithCaller(RelationalCaller + ".UpdateUserPhoneById"));
      }
      return Fail(DbError(RelationalCaller + ".UpdateUserPhoneById", TableNotSet));
    }

    /** UpdateUserEmailById: the same over the email. */
    method UpdateUserEmailById(id: Uuid, userType: UserType, email: string) returns (r: Outcome<()>)
      ensures unchanged(this)
      ensures txDown ==> r == Fail(DbError(RelationalCaller + ".UpdateUserEmailById", ConnectionLost))
      ensures !txDown && userType !in AllUserTypes ==> r == Crash("unknown userType")
      ensures !txDown && userType in AllUserTypes ==>
        if id !in Table(KindOf(userType)) then
          r == Fail(Template(UserNotFoundAppCode).WithReason("id", ToString(id)).WithCaller(RelationalCaller + ".UpdateUserEmailById"))
        else r == Fail(DbError(RelationalCaller + ".UpdateUserEmailById", TableNotSet))
    {
      if txDown { return Fail(DbError(RelationalCaller + ".UpdateUserEmailById", ConnectionLost)); }
      var m := UserModelFromUserType(userType);
      if !m.Ok? { return Crash("unknown userType"); }
      if id !in Table(m.value) {
        return Fail(Template(UserNotFoundAppCode).WithReason("id", ToString(id)).WithCaller(RelationalCaller + ".UpdateUserEmailById"));
      }
      return Fail(DbError(RelationalCaller + ".UpdateUserEmailById", TableNotSet));
    }

    /** The rows of both tables holding `contact` in column `c`. */
    function CountOf(c: Column, contact: string): (n: nat)
      reads this
      ensures n == if c.EmailColumn? then EmailCount(contact) else PhoneCount(contact)
    {
      if c.EmailColumn? then EmailCount(contact) else PhoneCount(contact)
    }

    /**
     * The cap as evidently intended: counted over both user tables, a
     * contact on `limit` rows or more is refused, and any other passes; an
     * unreachable database fails the count.
     */
    function ContactLimitCorrected(c: Column, contact: string): (r: Outcome<()>)
      reads this
      ensures down ==> r == Fail(DbError(LimitCaller(c), ConnectionLost))
      ensures !down ==> (r.Ok? <==> CountOf(c, contact) < limit)
      ensures !down && !r.Ok? ==> r == Fail(TakenByMultiple(c, contact).WithCaller(LimitCaller(c)))
    {
      if down then Fail(DbError(LimitCaller(c), ConnectionLost))
      else if CountOf(c, contact) >= limit then Fail(TakenByMultiple(c, contact).WithCaller(LimitCaller(c)))
      else Ok(())
    }

    /** CheckUserEmailLimit as written: the table-less count fails, connected or not. */
    method CheckUserEmailLimit(email: string) returns (r: Outcome<()>)
      ensures r == ContactLimit(EmailColumn, email)
    {
      return Fail(DbError(RelationalCaller + ".CheckUserEmailLimit", TableNotSet));
    }

    /** CheckUserPhoneLimit as written: the same over the phone number. */
    method CheckUserPhoneLimit(phoneNumber: string) returns (r: Outcome<()>)
      ensures r == ContactLimit(PhoneColumn, phoneNumber)
    {
      return Fail(DbError(RelationalCaller + ".CheckUserPhoneLimit", TableNotSet));
    }
  }

  /**
   * Wherever the intended cap lets a contact through, the cap as written
   * refuses it; and with the database unreachable the two fail with
   * different errors, the table-less count never reaching the connection.
   */
  lemma {:induction false} TablelessCountRefuses(rel: Relational, c: Column, contact: string)
    ensures rel.ContactLimitCorrected(c, contact).Ok? ==> !ContactLimit(c, contact).Ok?
    ensures rel.down ==> ContactLimit(c, contact) != rel.ContactLimitCorrected(c, contact)
    ensures !rel.down && rel.CountOf(c, contact) < rel.limit ==> ContactLimit(c, contact) != rel.ContactLimitCorrected(c, contact)
  {
    if rel.down {
      assert DbError(LimitCaller(c), TableNotSet).message != DbError(LimitCaller(c), ConnectionLost).message;
    }
  }
}
