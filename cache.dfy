/**
 * The ephemeral key-value store (Redis protocol): one-time codes, admin
 * sign-up keys and the JWT blacklist, all under string keys with an optional
 * expiry measured on the logical clock.
 */
module Cache {
  import opened Wrappers
  import opened Errors
  import opened IoAuth
  import opened Clocks

  /** The caller tag prefix; the package-level prefix is defined outside this model. */
  const CacheCaller: string := "repository.Cache"

  /** The text of the error a command returns when the server cannot serve it. */
  const ConnectionError: string := "connection refused"

  /** The Redis command a fault is attached to. */
  datatype Command = GET | SET | DEL

  /** A stored value and the second from which it is gone (None: it never expires). */
  datatype Entry = Entry(value: string, expiresAt: Option<int>)

  /** The key of a one-time code. */
  function OtpTokenKey(identity: string, userType: UserType, otpType: OtpType): string
  {
    identity + userType + otpType
  }

  /** The key of an admin sign-up key. */
  function OtpKeyKey(identity: string, userType: UserType): string
  {
    identity + userType + "key"
  }

  /** SET with a TTL in seconds; a TTL that is not positive stores the value with no expiry. */
  function Expiring(value: string, ttl: int, now: int): Entry
  {
    Entry(value, if ttl > 0 then Some(now + ttl) else None)
  }

  predicate LiveAt(entries: map<string, Entry>, key: string, now: int)
  {
    key in entries && (entries[key].expiresAt.None? || now < entries[key].expiresAt.value)
  }

  /** GET followed by Scan into a string: a missing or expired key reads as "". */
  function GetAt(entries: map<string, Entry>, key: string, now: int): string
  {
    if LiveAt(entries, key, now) then entries[key].value else ""
  }

  /** What a failing command turns into once FuncPipe has wrapped it. */
  function IoError(caller: string): (e: ErrorValue)
    ensures e.isInternal && e.callers == [caller]
  {
    FuncPipe(caller, Some(Plain(ConnectionError))).value
  }

  /** After SET and before the TTL runs out, GET returns the value; afterwards "". */
  lemma SetThenGet(entries: map<string, Entry>, key: string, value: string, ttl: int, now: int, later: int)
    requires now <= later
    ensures GetAt(entries[key := Expiring(value, ttl, now)], key, later)
            == if ttl <= 0 || later < now + ttl then value else ""
  {
  }

  /** SET overwrites what the key held, live or expired. */
  lemma SetOverwrites(entries: map<string, Entry>, key: string, v1: string, v2: string, t1: int, t2: int, now: int)
    requires t2 > 0
    ensures GetAt(entries[key := Expiring(v1, t1, now)][key := Expiring(v2, t2, now)], key, now) == v2
  {
  }

  /** SET and DEL touch no other key. */
  lemma OthersUnchanged(entries: map<string, Entry>, key: string, other: string, e: Entry, now: int)
    requires other != key
    ensures GetAt(entries[key := e], other, now) == GetAt(entries, other, now)
    ensures GetAt(entries - {key}, other, now) == GetAt(entries, other, now)
  {
  }

  lemma DeleteThenGet(entries: map<string, Entry>, key: string, now: int)
    ensures GetAt(entries - {key}, key, now) == ""
    ensures !LiveAt(entries - {key}, key, now)
  {
  }

  /** Codes for different user types or OTP types never share a key. */
  lemma {:induction false} OtpKeysSeparate(identity: string, ut1: UserType, ut2: UserType, ot1: OtpType, ot2: OtpType)
    requires ut1 in AllUserTypes && ut2 in AllUserTypes
    ensures OtpTokenKey(identity, ut1, ot1) == OtpTokenKey(identity, ut2, ot2) <==> ut1 == ut2 && ot1 == ot2
  {
    if OtpTokenKey(identity, ut1, ot1) == OtpTokenKey(identity, ut2, ot2) {
      assert identity + ut1 + ot1 == identity + (ut1 + ot1);
      assert identity + ut2 + ot2 == identity + (ut2 + ot2);
      PrefixCancel(identity, ut1 + ot1, ut2 + ot2);
      SuffixesSeparate(ut1, ut2, ot1, ot2);
    }
  }

  /** A sign-up key stored for one user type is not visible under the other. */
  lemma {:induction false} SignupKeysSeparate(identity: string, ut1: UserType, ut2: UserType)
    requires ut1 in AllUserTypes && ut2 in AllUserTypes
    ensures OtpKeyKey(identity, ut1) == OtpKeyKey(identity, ut2) <==> ut1 == ut2
  {
    if OtpKeyKey(identity, ut1) == OtpKeyKey(identity, ut2) {
      assert identity + ut1 + "key" == identity + (ut1 + "key");
      assert identity + ut2 + "key" == identity + (ut2 + "key");
      PrefixCancel(identity, ut1 + "key", ut2 + "key");
      assert ut1[0] == (ut1 + "key")[0];
    }
  }

  /** No one-time code of a known type shares a key with a sign-up key for the same identity. */
  lemma {:induction false} CodesAndKeysSeparate(identity: string, ut1: UserType, ut2: UserType, ot: OtpType)
    requires ut1 in AllUserTypes && ut2 in AllUserTypes && ot in OtpTypes + [AdminSignupKeyOtpType]
    ensures OtpTokenKey(identity, ut1, ot) != OtpKeyKey(identity, ut2)
  {
    TypeLengths(ut1, ot);
    TypeLengths(ut2, ot);
    assert |OtpTokenKey(identity, ut1, ot)| != |OtpKeyKey(identity, ut2)|;
  }

  lemma PrefixCancel(a: string, x: string, y: string)
    requires a + x == a + y
    ensures x == y
  {
    assert (a + x)[|a|..] == x;
  }

  lemma SuffixCancel(a: string, b: string, s: string)
    ensures a + s == b + s ==> a == b
  {
    if a + s == b + s {
      assert a == (a + s)[..|a|] && b == (b + s)[..|b|];
    }
  }

  lemma TypeLengths(ut: UserType, ot: OtpType)
    requires ut in AllUserTypes && ot in OtpTypes + [AdminSignupKeyOtpType]
    ensures 5 <= |ut| <= 6 && |ot| >= 7
  {
  }

  lemma SuffixesSeparate(ut1: UserType, ut2: UserType, ot1: OtpType, ot2: OtpType)
    requires ut1 in AllUserTypes && ut2 in AllUserTypes
    requires ut1 + ot1 == ut2 + ot2
    ensures ut1 == ut2 && ot1 == ot2
  {
    assert ut1[0] == (ut1 + ot1)[0] && ut2[0] == (ut2 + ot2)[0];
    assert (ut1 + ot1)[|ut1|..] == ot1 && (ut2 + ot2)[|ut2|..] == ot2;
  }

  class Cache {
    var entries: map<string, Entry>
    /**
     * The (command, key) pairs that fail, as when the server cannot be
     * reached for that call. A GET on a key may succeed while the DEL or SET
     * that follows on the same key fails.
     */
    var failing: set<(Command, string)>
    const clock: Clock

    constructor (clock: Clock)
      ensures entries == map[] && failing == {} && this.clock == clock
    {
      entries := map[];
      failing := {};
      this.clock := clock;
    }

    /** The value GET would return now. */
    function Get(key: string): string
      reads this, clock
    {
      GetAt(entries, key, clock.now)
    }

    /**
     * What comparing a sent code with the one stored for (identity,
     * userType, otpType) and then deleting it decides.
     */
    ghost function CodeCheck(identity: string, otpType: OtpType, userType: UserType, token: string): Outcome<()>
      reads this, clock
    {
      var key := OtpTokenKey(identity, userType, otpType);
      if (GET, key) in failing then Fail(IoError(CacheCaller + ".VerifyOtpToken"))
      else if Get(key) != token then Fail(Template(TokenIncorrectAppCode))
      else if (DEL, key) in failing then Fail(IoError(CacheCaller + ".DeleteOtpToken"))
      else Ok(())
    }

    predicate Live(key: string)
      reads this, clock
    {
      LiveAt(entries, key, clock.now)
    }

    /** SET and DEL: the one key written, or nothing when the command fails. */
    method Put(caller: string, key: string, value: string, ttl: int) returns (r: Outcome<()>)
      modifies this
      ensures failing == old(failing)
      ensures (SET, key) in failing ==> r == Fail(IoError(caller)) && entries == old(entries)
      ensures (SET, key) !in failing ==> r == Ok(()) && entries == old(entries)[key := Expiring(value, ttl, clock.now)]
    {
      if (SET, key) in failing {
        return Fail(IoError(caller));
      }
      entries := entries[key := Expiring(value, ttl, clock.now)];
      return Ok(());
    }

    method Del(caller: string, key: string) returns (r: Outcome<()>)
      modifies this
      ensures failing == old(failing)
      ensures (DEL, key) in failing ==> r == Fail(IoError(caller)) && entries == old(entries)
      ensures (DEL, key) !in failing ==> r == Ok(()) && entries == old(entries) - {key}
    {
      if (DEL, key) in failing {
        return Fail(IoError(caller));
      }
      entries := entries - {key};
      return Ok(());
    }

    method Read(caller: string, key: string) returns (r: Outcome<string>)
      ensures (GET, key) in failing ==> r == Fail(IoError(caller))
      ensures (GET, key) !in failing ==> r == Ok(Get(key))
    {
      if (GET, key) in failing {
        return Fail(IoError(caller));
      }
      return Ok(GetAt(entries, key, clock.now));
    }

    method AddJwtToBlacklist(token: string, expire: int) returns (r: Outcome<()>)
      modifies this
      ensures failing == old(failing)
      ensures (SET, token) in failing ==> r == Fail(IoError(CacheCaller + ".AddJwtToBlacklist")) && entries == old(entries)
      ensures (SET, token) !in failing ==> r == Ok(()) && entries == old(entries)[token := Expiring("true", expire, clock.now)]
    {
      r := Put(CacheCaller + ".AddJwtToBlacklist", token, "true", expire);
    }

    /**
     * GET scanned into a bool: a missing or expired key is not blacklisted,
     * and a live key is, whatever it holds. go-redis v9 scans a bool as
     * `value == "1"` and never refuses the value, and the answer is true as
     * soon as the scan returns no error.
     */
    method IsJwtInBlacklist(token: string) returns (r: Outcome<bool>)
      ensures (GET, token) in failing ==> r == Fail(IoError(CacheCaller + ".IsJwtInBlacklist"))
      ensures (GET, token) !in failing && !Live(token) ==> r == Ok(false)
      ensures (GET, token) !in failing && Live(token) ==> r == Ok(true)
    {
      if (GET, token) in failing {
        return Fail(IoError(CacheCaller + ".IsJwtInBlacklist"));
      }
      if !LiveAt(entries, token, clock.now) {
        return Ok(false);
      }
      return Ok(true);
    }

    method SetOtpToken(identity: string, token: string, otpType: OtpType, expire: int, userType: UserType)
      returns (r: Outcome<()>)
      modifies this
      ensures failing == old(failing)
      ensures (SET, OtpTokenKey(identity, userType, otpType)) in failing ==> r == Fail(IoError(CacheCaller + ".SetOtpToken")) && entries == old(entries)
      ensures (SET, OtpTokenKey(identity, userType, otpType)) !in failing ==>
                r == Ok(()) && entries == old(entries)[OtpTokenKey(identity, userType, otpType) := Expiring(token, expire, clock.now)]
    {
      r := Put(CacheCaller + ".SetOtpToken", OtpTokenKey(identity, userType, otpType), token, expire);
    }

    /** The caller tag here is ".VerifyOtpToken", as in the source. */
    method GetOtpToken(identity: string, otpType: OtpType, userType: UserType) returns (r: Outcome<string>)
      ensures (GET, OtpTokenKey(identity, userType, otpType)) in failing ==> r == Fail(IoError(CacheCaller + ".VerifyOtpToken"))
      ensures (GET, OtpTokenKey(identity, userType, otpType)) !in failing ==> r == Ok(Get(OtpTokenKey(identity, userType, otpType)))
    {
      r := Read(CacheCaller + ".VerifyOtpToken", OtpTokenKey(identity, userType, otpType));
    }

    method DeleteOtpToken(identity: string, otpType: OtpType, userType: UserType) returns (r: Outcome<()>)
      modifies this
      ensures failing == old(failing)
      ensures (DEL, OtpTokenKey(identity, userType, otpType)) in failing ==> r == Fail(IoError(CacheCaller + ".DeleteOtpToken")) && entries == old(entries)
      ensures (DEL, OtpTokenKey(identity, userType, otpType)) !in failing ==>
                r == Ok(()) && entries == old(entries) - {OtpTokenKey(identity, userType, otpType)}
    {
      r := Del(CacheCaller + ".DeleteOtpToken", OtpTokenKey(identity, userType, otpType));
    }

    method SetOtpKey(identity: string, key: string, expire: int, userType: UserType) returns (r: Outcome<()>)
      modifies this
      ensures failing == old(failing)
      ensures (SET, OtpKeyKey(identity, userType)) in failing ==> r == Fail(IoError(CacheCaller + ".SetOtpKey")) && entries == old(entries)
      ensures (SET, OtpKeyKey(identity, userType)) !in failing ==>
                r == Ok(()) && entries == old(entries)[OtpKeyKey(identity, userType) := Expiring(key, expire, clock.now)]
    {
      r := Put(CacheCaller + ".SetOtpKey", OtpKeyKey(identity, userType), key, expire);
    }

    method GetOtpKey(identity: string, userType: UserType) returns (r: Outcome<string>)
      ensures (GET, OtpKeyKey(identity, userType)) in failing ==> r == Fail(IoError(CacheCaller + ".GetOtpKey"))
      ensures (GET, OtpKeyKey(identity, userType)) !in failing ==> r == Ok(Get(OtpKeyKey(identity, userType)))
    {
      r := Read(CacheCaller + ".GetOtpKey", OtpKeyKey(identity, userType));
    }

    method DeleteOtpKey(identity: string, userType: UserType) returns (r: Outcome<()>)
      modifies this
      ensures failing == old(failing)
      ensures (DEL, OtpKeyKey(identity, userType)) in failing ==> r == Fail(IoError(CacheCaller + ".DeleteOtpKey")) && entries == old(entries)
      ensures (DEL, OtpKeyKey(identity, userType)) !in failing ==>
                r == Ok(()) && entries == old(entries) - {OtpKeyKey(identity, userType)}
    {
      r := Del(CacheCaller + ".DeleteOtpKey", OtpKeyKey(identity, userType));
    }
  }
}
