/**
 * The user service: reading, editing and deleting an account by its id.
 * Every error is tagged "services.User.<operation>" on its way out.
 */
module UserService {
  import opened Wrappers
  import opened Errors
  import opened IoAuth
  import opened Uuids
  import opened Validations
  import opened UserModels
  import opened Externals
  import Cache
  import Relational
  import AuthService

  const UserCaller: string := "services.User"

  /**
   * What UserGet and UserDelete do with GetUserById's answer, as written:
   * a deleted row is reported, and a missing row leaves a nil model whose
   * next method call panics.
   */
  function CheckFetchAsWritten(f: Relational.Fetch): (r: Outcome<Row>)
    ensures f.isDeleted ==> r == Fail(Template(UserDeletedAppCode))
    ensures !f.isDeleted && f.user.None? ==> r.Crash?
    ensures !f.isDeleted && f.user.Some? ==> r == Ok(f.user.value)
    ensures r.Ok? ==> f.user == Some(r.value)
  {
    if f.isDeleted then Fail(Template(UserDeletedAppCode))
    else if f.user.None? then Crash("invalid memory address or nil dereference")
    else Ok(f.user.value)
  }

  /** The same checks with the missing row reported as UserNotFound, as the reset flows of the auth service do. */
  function CheckFetch(f: Relational.Fetch, id: Uuid): (r: Outcome<Row>)
    ensures !r.Crash?
    ensures !CheckFetchAsWritten(f).Crash? ==> r == CheckFetchAsWritten(f)
    ensures !f.isDeleted && f.user.None? ==> r == Fail(Template(UserNotFoundAppCode).WithReason("id", ToString(id)))
  {
    if f.isDeleted then Fail(Template(UserDeletedAppCode))
    else if f.user.None? then Fail(Template(UserNotFoundAppCode).WithReason("id", ToString(id)))
    else Ok(f.user.value)
  }

  /** An id with no row makes UserGet and UserDelete panic as written; the corrected check reports it. */
  lemma MissingIdPanics(k: Kind, id: Uuid)
    ensures CheckFetchAsWritten(Relational.Visible(k, None)).Crash?
    ensures CheckFetch(Relational.Visible(k, None), id) == Fail(Template(UserNotFoundAppCode).WithReason("id", ToString(id)))
  {
  }

  /**
   * The account UserGet and UserDelete act on, as written: what GetUserById
   * and the deleted check report, except that an id with no row panics.
   */
  ghost function AccountAsWritten(rel: Relational.Relational, id: Uuid, userType: UserType): (r: Outcome<(Kind, Row)>)
    reads rel
    ensures r.Crash? <==> userType !in AllUserTypes || (!rel.down && id !in rel.Table(Relational.KindOf(userType)))
    ensures !r.Crash? ==> r == rel.AccountById(id, userType)
  {
    if userType in AllUserTypes && !rel.down && id !in rel.Table(Relational.KindOf(userType)) then
      Crash("invalid memory address or nil dereference")
    else rel.AccountById(id, userType)
  }

  /** UserPut's response as written: the avatar URL, even when the avatar was just removed. */
  function PutResponseAsWritten(req: UserPutRequest): (resp: UserPutResponse)
    ensures resp.avatar == GetAvatarUrl(req.id, req.userType)
  {
    UserPutResponse(GetAvatarUrl(req.id, req.userType))
  }

  /** The corrected response: the avatar URL only when an avatar was sent. */
  function PutResponse(req: UserPutRequest): (resp: UserPutResponse)
    ensures req.avatar != "" ==> resp == PutResponseAsWritten(req)
    ensures req.avatar == "" ==> resp.avatar == ""
  {
    UserPutResponse(if req.avatar == "" then "" else GetAvatarUrl(req.id, req.userType))
  }

  /** The row UserPut leaves behind. */
  function Edited(row: Row, req: UserPutRequest, now: int): Row
  {
    row.(username := req.username, name := req.name, hasAvatar := req.avatar != "", updatedAt := now)
  }

  /** The corrected response shows the avatar a later UserGet of the edited row shows. */
  lemma PutResponseAgreesWithGet(k: Kind, row: Row, req: UserPutRequest, now: int)
    requires row.id == req.id && k.UserType() == req.userType
    ensures PutResponse(req).avatar == ToUserAsWritten(k, Edited(row, req, now)).avatar
  {
  }

  /** As written, clearing the avatar answers with a URL that a later UserGet does not show. */
  lemma ClearedAvatarStillLinked(k: Kind, row: Row, req: UserPutRequest, now: int)
    requires row.id == req.id && k.UserType() == req.userType && req.avatar == ""
    ensures PutResponseAsWritten(req).avatar != ToUserAsWritten(k, Edited(row, req, now)).avatar
  {
  }

  /**
   * SendOtp stores a code under the account's email when it has one, while
   * UserDelete reads the delete-account code under the phone number: for an
   * account with both, storing the code leaves what UserDelete reads as it was.
   */
  lemma {:induction false} DeleteCodeStoredElsewhere(row: Row, ut: UserType, entries: map<string, Cache.Entry>,
                                                   code: string, ttl: int, now: int, later: int)
    requires row.GetEmail() != "" && row.GetEmail() != row.GetPhoneNumber()
    ensures var stored := Cache.OtpTokenKey(AuthService.AccountIdentity(row), ut, DeleteAccountOtpType);
            var read := Cache.OtpTokenKey(row.GetPhoneNumber(), ut, DeleteAccountOtpType);
            Cache.GetAt(entries[stored := Cache.Expiring(code, ttl, now)], read, later) == Cache.GetAt(entries, read, later)
  {
    var e, p := row.GetEmail(), row.GetPhoneNumber();
    var s := ut + DeleteAccountOtpType;
    assert Cache.OtpTokenKey(e, ut, DeleteAccountOtpType) == e + s;
    assert Cache.OtpTokenKey(p, ut, DeleteAccountOtpType) == p + s;
    Cache.SuffixCancel(e, p, s);
    Cache.OthersUnchanged(entries, Cache.OtpTokenKey(e, ut, DeleteAccountOtpType),
                          Cache.OtpTokenKey(p, ut, DeleteAccountOtpType), Cache.Expiring(code, ttl, now), later);
  }

  class Service {
    const cache: Cache.Cache
    const rel: Relational.Relational
    const s3: ObjectStore

    constructor (cache: Cache.Cache, rel: Relational.Relational, s3: ObjectStore)
      ensures this.cache == cache && this.rel == rel && this.s3 == s3
    {
      this.cache := cache;
      this.rel := rel;
      this.s3 := s3;
    }

    /** GetUserById followed by the deleted check and the use of the model, which panics when it is nil. */
    method Lookup(id: Uuid, userType: UserType) returns (r: Outcome<(Kind, Row)>)
      requires rel.Valid()
      ensures r == AccountAsWritten(rel, id, userType)
      ensures r.Ok? ==> userType in AllUserTypes && r.value.0 == Relational.KindOf(userType)
                        && id in rel.Table(r.value.0) && rel.Table(r.value.0)[id] == r.value.1
                        && r.value.1.id == id && !r.value.1.isDeleted
    {
      var f := rel.GetUserById(id, userType);
      if f.Failed() { return f.Forward(); }
      var c := CheckFetchAsWritten(f.value);
      if c.Failed() { return c.Forward(); }
      return Ok((f.value.kind, c.value));
    }

    /**
     * UserGet: the public view of a live account, whose username is empty
     * for a client; an id with no row panics.
     */
    method UserGet(req: UserGetRequest) returns (r: Outcome<User>)
      requires rel.Valid()
      ensures var a := AccountAsWritten(rel, req.id, req.userType);
              (a.Failed() ==> r == Pipe(UserCaller + ".UserGet", a.Forward()))
              && (a.Ok? ==> r == Ok(ToUserAsWritten(a.value.0, a.value.1)))
      ensures r.Crash? <==> req.userType !in AllUserTypes || (!rel.down && req.id !in rel.Table(Relational.KindOf(req.userType)))
      ensures r.Ok? <==> req.userType in AllUserTypes && !rel.down
                         && req.id in rel.Table(Relational.KindOf(req.userType))
                         && !rel.Table(Relational.KindOf(req.userType))[req.id].isDeleted
      ensures r.Ok? ==> r.value.id == req.id && r.value.userType == req.userType
                        && r.value.username == (if req.userType == ClientUserType then ""
                                                else rel.Table(Relational.KindOf(req.userType))[req.id].username)
    {
      var a := Lookup(req.id, req.userType);
      if a.Failed() { return Pipe(UserCaller + ".UserGet", a.Forward()); }
      return Ok(ToUserAsWritten(a.value.0, a.value.1));
    }

    /** UpdateUserProfileById would accept this edit. */
    ghost predicate Editable(req: UserPutRequest)
      reads rel
    {
      req.userType in AllUserTypes && !rel.txDown
      && var t := rel.Table(Relational.KindOf(req.userType));
      req.id in t && !(exists other :: other in t && other != req.id && t[other].username == req.username)
    }

    /**
     * UserPut: the avatar is removed or uploaded first, then the profile row
     * is edited; a failed edit leaves the avatar change in place.
     */
    method UserPut(req: UserPutRequest, decoded: Option<ErrorValue>) returns (r: Outcome<UserPutResponse>)
      requires rel.Valid()
      modifies rel, s3
      ensures rel.Valid() && rel.down == old(rel.down) && s3.down == old(s3.down)
      ensures AvatarValidator(req.avatar, decoded).Failed() ==>
                r == Pipe(UserCaller + ".UserPut", AvatarValidator(req.avatar, decoded).Forward()) && unchanged(rel, s3)
      ensures AvatarValidator(req.avatar, decoded).Ok? ==>
                s3.objects == if s3.down then old(s3.objects)
                              else if req.avatar == "" then old(s3.objects) - {AvatarObject(req.userType, req.id)}
                              else old(s3.objects) + {AvatarObject(req.userType, req.id)}
      ensures r.Ok? <==> AvatarValidator(req.avatar, decoded).Ok? && !s3.down && old(Editable(req))
      ensures !r.Ok? ==> unchanged(rel)
      ensures r.Ok? ==>
                var k := Relational.KindOf(req.userType);
                r.value == PutResponseAsWritten(req)
                && rel.Table(k) == old(rel.Table(k))[req.id := Edited(old(rel.Table(k))[req.id], req, rel.clock.now)]
                && rel.Table(if k.AdminModel? then ClientModel else AdminModel) == old(rel.Table(if k.AdminModel? then ClientModel else AdminModel))
    {
      var img := AvatarValidator(req.avatar, decoded);
      if img.Failed() { return Pipe(UserCaller + ".UserPut", img.Forward()); }
      var s: Outcome<()>;
      if !img.value {
        s := s3.DeleteAvatar(req.id, req.userType);
      } else {
        s := s3.UploadAvatar(req.id, req.userType);
      }
      if s.Failed() { return Pipe(UserCaller + ".UserPut", s.Forward()); }
      var u := rel.UpdateUserProfileById(req.id, req.username, req.name, req.avatar, req.userType);
      if u.Failed() { return Pipe(UserCaller + ".UserPut", u.Forward()); }
      return Ok(PutResponseAsWritten(req));
    }

    /** The avatar object goes when the row says there is one. */
    method DropAvatar(row: Row, req: UserDeleteRequest) returns (r: Outcome<()>)
      modifies s3
      ensures s3.down == old(s3.down)
      ensures r.Ok? <==> !row.hasAvatar || !s3.down
      ensures r.Failed() ==> r == Fail(RemoteError(["repository.S3.DeleteAvatar"], Unreachable)) && s3.objects == old(s3.objects)
      ensures r.Ok? ==> s3.objects == if row.hasAvatar then old(s3.objects) - {AvatarObject(req.userType, req.id)} else old(s3.objects)
    {
      if row.hasAvatar {
        r := s3.DeleteAvatar(req.id, req.userType);
      } else {
        r := Ok(());
      }
    }

    /** With tokenCheck, the delete-account code stored under the phone number is compared and consumed first. */
    method Confirm(row: Row, req: UserDeleteRequest, tokenCheck: bool) returns (r: Outcome<()>)
      modifies cache
      ensures cache.failing == old(cache.failing)
      ensures !tokenCheck ==> r == Ok(()) && cache.entries == old(cache.entries)
      ensures tokenCheck ==> r == old(cache.CodeCheck(row.GetPhoneNumber(), DeleteAccountOtpType, req.userType, req.token))
      ensures cache.entries == if tokenCheck && r.Ok? then old(cache.entries) - {Cache.OtpTokenKey(row.GetPhoneNumber(), req.userType, DeleteAccountOtpType)}
                               else old(cache.entries)
    {
      if !tokenCheck { return Ok(()); }
      var stored := cache.GetOtpToken(row.GetPhoneNumber(), DeleteAccountOtpType, req.userType);
      if stored.Failed() { return stored.Forward(); }
      if stored.value != req.token { return Fail(Template(TokenIncorrectAppCode)); }
      r := cache.DeleteOtpToken(row.GetPhoneNumber(), DeleteAccountOtpType, req.userType);
    }

    /**
     * UserDelete: look the account up, remove its avatar, check the code
     * unless tokenCheck is off (an admin deleting), then soft-delete the row.
     * The avatar is gone even when the code is wrong, and the avatar and
     * the code are both gone when the soft delete's transaction fails.
     */
    method UserDelete(req: UserDeleteRequest, tokenCheck: bool) returns (r: Outcome<()>)
      requires rel.Valid()
      modifies rel, s3, cache
      ensures rel.Valid() && rel.down == old(rel.down) && rel.txDown == old(rel.txDown)
      ensures s3.down == old(s3.down) && cache.failing == old(cache.failing)
      ensures old(AccountAsWritten(rel, req.id, req.userType)).Failed() ==>
                r == Pipe(UserCaller + ".UserDelete", old(AccountAsWritten(rel, req.id, req.userType)).Forward())
                && unchanged(rel, s3, cache)
      ensures old(AccountAsWritten(rel, req.id, req.userType)).Ok? ==>
                var k := old(AccountAsWritten(rel, req.id, req.userType)).value.0;
                var row := old(AccountAsWritten(rel, req.id, req.userType)).value.1;
                var c := if tokenCheck then old(cache.CodeCheck(row.GetPhoneNumber(), DeleteAccountOtpType, req.userType, req.token))
                         else Ok(());
                (row.hasAvatar && s3.down ==>
                   r == Fail(RemoteError(["repository.S3.DeleteAvatar"], Unreachable).WithCaller(UserCaller + ".UserDelete"))
                   && unchanged(rel, cache) && s3.objects == old(s3.objects))
                && (!row.hasAvatar || !s3.down ==>
                   s3.objects == (if row.hasAvatar then old(s3.objects) - {AvatarObject(req.userType, req.id)} else old(s3.objects))
                   && (c.Failed() ==> r == Pipe(UserCaller + ".UserDelete", c) && unchanged(rel) && cache.entries == old(cache.entries))
                   && (c.Ok? ==>
                         cache.entries == (if tokenCheck then old(cache.entries) - {Cache.OtpTokenKey(row.GetPhoneNumber(), req.userType, DeleteAccountOtpType)}
                                           else old(cache.entries))
                         && (rel.txDown ==>
                               r == Fail(Relational.DbError(Relational.RelationalCaller + ".DeleteUserById", Relational.ConnectionLost)
                                           .WithCaller(UserCaller + ".UserDelete"))
                               && unchanged(rel))
                         && (!rel.txDown ==>
                               r == Ok(())
                               && rel.Table(k) == old(rel.Table(k))[req.id := Deleted(row, rel.clock.now)]
                               && rel.Table(if k.AdminModel? then ClientModel else AdminModel) == old(rel.Table(if k.AdminModel? then ClientModel else AdminModel)))))
    {
      var a := Lookup(req.id, req.userType);
      if a.Failed() { return Pipe(UserCaller + ".UserDelete", a.Forward()); }
      var row := a.value.1;
      var d := DropAvatar(row, req);
      if d.Failed() { return Pipe(UserCaller + ".UserDelete", d); }
      var c := Confirm(row, req, tokenCheck);
      if c.Failed() { return Pipe(UserCaller + ".UserDelete", c); }
      var del := rel.DeleteUserById(req.id, req.userType);
      r := Pipe(UserCaller + ".UserDelete", del);
    }
  }
}
