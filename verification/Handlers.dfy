/** The REST handlers as single steps: the specification of each as a function on the
    whole state, and `App`, whose methods go through the stores as the routes do. */
module Handlers {
  import opened Prelude
  import opened Redis
  import opened SessionStore
  import opened Lockout
  import opened Jwt
  import opened Validation
  import opened Repositories

  /** One clock, `db.now`, serves the application, Redis and Postgres. `generated` is
      history: the reset tokens made so far. */
  datatype World = World(db: Db, pg: Pg, issued: Issued, generated: set<TokenHash>)

  datatype Response =
    | Registered(id: Uid)
    | Tokens(access: Claims, refresh: Claims)
    | NoContent
    | Done
    | Failed(error: ApiError)

  /** The row that `SELECT ... WHERE email = $1` finds. */
  ghost function UserOf(pg: Pg, email: Email): Option<Uid> {
    if EmailTaken(pg, email) then var u :| u in pg.users && HasEmail(pg, u, email); Some(u) else None
  }

  function FromData(e: DataError): ApiError {
    match e
    case EmailConflict => Conflict
    case _ => Internal
  }

  // --- Specifications ---

  function RegisterSpec(w: World, email: Email, password: Password, id: Uid): (World, Response) {
    if ValidateRegister(email, password).Err? then (w, Failed(Invalid))
    else if EmailTaken(w.pg, email) then (w, Failed(Conflict))
    else (w.(pg := Inserted(w.pg, id, User(email, Argon2id(password)))), Registered(id))
  }

  /** Sign a pair of tokens and store the refresh token. */
  function IssueSpec(w: World, sub: Uid, email: Email, accessJti: Jti, refreshJti: Jti): (World, Response) {
    var access := SignWithClaims(w.db.now, sub, email, Access, accessJti);
    var refresh := SignWithClaims(w.db.now, sub, email, Refresh, refreshJti);
    (w.(db := Stored(w.db, refreshJti, sub, REFRESH_TTL),
        issued := w.issued[accessJti := access][refreshJti := refresh]),
     Tokens(access, refresh))
  }

  ghost function LoginSpec(w: World, email: Email, password: Password, accessJti: Jti, refreshJti: Jti)
    : (World, Response)
  {
    if ValidateLogin(email, password).Err? then (w, Failed(Invalid))
    else if Locked(w.db, email) then (w, Failed(Unauthorized))
    else
      match UserOf(w.pg, email)
      case None => (w, Failed(Unauthorized))
      case Some(u) =>
        if !Verify(password, w.pg.users[u].hash) then (w.(db := FailureRecorded(w.db, email)), Failed(Unauthorized))
        else IssueSpec(w.(db := Cleared(w.db, email)), u, w.pg.users[u].email, accessJti, refreshJti)
  }

  function RefreshSpec(w: World, leeway: nat, token: Claims, accessJti: Jti, refreshJti: Jti): (World, Response) {
    if DecodeAndCheck(w.issued, token, Refresh, w.db.now, leeway).Err? || Owner(w.db, token.jti).None?
    then (w, Failed(Unauthorized))
    else IssueSpec(w.(db := Revoked(w.db, token.jti)), token.sub, token.email, accessJti, refreshJti)
  }

  function LogoutSpec(w: World, leeway: nat, token: Claims): (World, Response) {
    if DecodeAndCheck(w.issued, token, Refresh, w.db.now, leeway).Err? then (w, Failed(Unauthorized))
    else (w.(db := Revoked(w.db, token.jti)), NoContent)
  }

  function LogoutAllSpec(w: World, leeway: nat, bearer: Claims): (World, Response) {
    if DecodeAndCheck(w.issued, bearer, Access, w.db.now, leeway).Err? then (w, Failed(Unauthorized))
    else (w.(db := AllRevoked(w.db, bearer.sub)), NoContent)
  }

  function ChangeSpec(w: World, leeway: nat, bearer: Claims, current: Password, new_: Password): (World, Response) {
    if DecodeAndCheck(w.issued, bearer, Access, w.db.now, leeway).Err? then (w, Failed(Unauthorized))
    else if ValidateChange(current, new_).Err? then (w, Failed(Invalid))
    else if bearer.sub !in w.pg.users || !Verify(current, w.pg.users[bearer.sub].hash) then (w, Failed(Unauthorized))
    else (w.(pg := WithPassword(w.pg, bearer.sub, Argon2id(new_))), NoContent)
  }

  function DeleteSpec(w: World, leeway: nat, bearer: Claims): (World, Response) {
    if DecodeAndCheck(w.issued, bearer, Access, w.db.now, leeway).Err? then (w, Failed(Unauthorized))
    else (w.(pg := Deleted(w.pg, bearer.sub)), NoContent)
  }

  ghost function ResetRequestSpec(w: World, email: Email, raw: Bytes): (World, Response) {
    if ValidateEmail(email).Err? then (w, Failed(Invalid))
    else
      match UserOf(w.pg, email)
      case None => (w, Done)
      case Some(u) =>
        var pg := Created(w.pg, u, Sha256(raw), w.db.now + RESET_TTL);
        var made := w.(generated := w.generated + {Sha256(raw)});
        match CreateError(w.pg, u, Sha256(raw))
        case Some(e) => (made, Failed(FromData(e)))
        case None => (made.(pg := pg), Done)
  }

  function ResetConfirmSpec(w: World, raw: Bytes, password: Password): (World, Response) {
    var hash := Sha256(raw);
    if raw == [] then (w, Failed(Invalid))
    else if ValidatePassword(password).Err? then (w, Failed(Invalid))
    else if !Consumable(w.pg, hash, w.db.now) then (w, Failed(BadRequest))
    else
      var uid, pg := w.pg.resets[hash].uid, Consumed(w.pg, hash, w.db.now);
      // the token stays used even if the row is no longer there to update
      if uid !in pg.users then (w.(pg := pg), Failed(Internal))
      else (w.(pg := WithPassword(pg, uid, Argon2id(password)), db := AllRevoked(w.db, uid)), Done)
  }

  // --- The handlers ---

  class App {
    const redis: Connection
    const pool: Pool
    const leeway: nat
    var issued: Issued
    ghost var generated: set<TokenHash>

    ghost function View(): World
      reads this, redis, pool
    {
      World(redis.db, pool.pg, issued, generated)
    }

    constructor (redis: Connection, pool: Pool, leeway: nat)
      ensures this.redis == redis && this.pool == pool && this.leeway == leeway
      ensures issued == map[] && generated == {}
    {
      this.redis, this.pool, this.leeway := redis, pool, leeway;
      this.issued, this.generated := map[], {};
    }

    method Register(email: Email, password: Password, id: Uid) returns (r: Response)
      modifies pool
      ensures (View(), r) == RegisterSpec(old(View()), email, password, id)
    {
      if ValidateRegister(email, password).Err? {
        return Failed(Invalid);
      }
      var repo := new UserRepository(pool);
      var created := repo.Create(id, email, Argon2id(password));
      match created {
        case Ok(_) => r := Response.Registered(id);
        case Err(e) => r := Failed(FromData(e));
      }
    }

    method Issue(sub: Uid, email: Email, accessJti: Jti, refreshJti: Jti) returns (r: Response)
      modifies this`issued, redis
      ensures (View(), r) == IssueSpec(old(View()), sub, email, accessJti, refreshJti)
    {
      var access := SignWithClaims(redis.db.now, sub, email, Access, accessJti);
      var refresh := SignWithClaims(redis.db.now, sub, email, Refresh, refreshJti);
      issued := issued[accessJti := access][refreshJti := refresh];
      var store := new TokenStore(redis);
      var _ := store.StoreRefreshToken(refreshJti, sub, REFRESH_TTL);
      r := Tokens(access, refresh);
    }

    method Login(email: Email, password: Password, accessJti: Jti, refreshJti: Jti) returns (r: Response)
      requires UniqueEmails(pool.pg)
      modifies this`issued, redis
      ensures (View(), r) == LoginSpec(old(View()), email, password, accessJti, refreshJti)
    {
      if ValidateLogin(email, password).Err? {
        return Failed(Invalid);
      }
      var lockout := new LockoutStore(redis);
      var locked := lockout.IsLocked(email);
      if locked {
        return Failed(Unauthorized);
      }
      var repo := new UserRepository(pool);
      var found := repo.FindByEmail(email);
      if found.None? {
        return Failed(Unauthorized);
      }
      var user := pool.pg.users[found.value];
      assert UserOf(pool.pg, email) == found;
      if !Verify(password, user.hash) {
        var _ := lockout.RecordFailure(email);
        return Failed(Unauthorized);
      }
      lockout.Clear(email);
      r := Issue(found.value, user.email, accessJti, refreshJti);
    }

    method RefreshTokens(token: Claims, accessJti: Jti, refreshJti: Jti) returns (r: Response)
      modifies this`issued, redis
      ensures (View(), r) == RefreshSpec(old(View()), leeway, token, accessJti, refreshJti)
    {
      var claims := DecodeAndCheck(issued, token, Refresh, redis.db.now, leeway);
      if claims.Err? {
        return Failed(Unauthorized);
      }
      var store := new TokenStore(redis);
      var owner := store.RevokeRefreshToken(claims.value.jti);
      if owner.None? {
        return Failed(Unauthorized);
      }
      r := Issue(claims.value.sub, claims.value.email, accessJti, refreshJti);
    }

    method Logout(token: Claims) returns (r: Response)
      modifies redis
      ensures (View(), r) == LogoutSpec(old(View()), leeway, token)
    {
      var claims := DecodeAndCheck(issued, token, Refresh, redis.db.now, leeway);
      if claims.Err? {
        return Failed(Unauthorized);
      }
      var store := new TokenStore(redis);
      var _ := store.RevokeRefreshToken(claims.value.jti);
      r := NoContent;
    }

    method LogoutAll(bearer: Claims) returns (r: Response)
      modifies redis
      ensures (View(), r) == LogoutAllSpec(old(View()), leeway, bearer)
    {
      var claims := DecodeAndCheck(issued, bearer, Access, redis.db.now, leeway);
      if claims.Err? {
        return Failed(Unauthorized);
      }
      var store := new TokenStore(redis);
      var _ := store.RevokeAllSessions(claims.value.sub);
      r := NoContent;
    }

    method ChangePassword(bearer: Claims, current: Password, new_: Password) returns (r: Response)
      modifies pool
      ensures (View(), r) == ChangeSpec(old(View()), leeway, bearer, current, new_)
    {
      var claims := DecodeAndCheck(issued, bearer, Access, redis.db.now, leeway);
      if claims.Err? {
        return Failed(Unauthorized);
      }
      if ValidateChange(current, new_).Err? {
        return Failed(Invalid);
      }
      var repo := new UserRepository(pool);
      var user := repo.FindById(claims.value.sub);
      if user.None? || !Verify(current, user.value.hash) {
        return Failed(Unauthorized);
      }
      var updated := repo.UpdatePassword(claims.value.sub, Argon2id(new_));
      match updated {
        case Ok(_) => r := NoContent;
        case Err(e) => r := Failed(FromData(e));
      }
    }

    method DeleteMe(bearer: Claims) returns (r: Response)
      modifies pool
      ensures (View(), r) == DeleteSpec(old(View()), leeway, bearer)
    {
      var claims := DecodeAndCheck(issued, bearer, Access, redis.db.now, leeway);
      if claims.Err? {
        return Failed(Unauthorized);
      }
      var repo := new UserRepository(pool);
      repo.Delete(claims.value.sub);
      assert pool.pg.users == Deleted(old(pool.pg), bearer.sub).users;
      assert pool.pg.resets == Deleted(old(pool.pg), bearer.sub).resets;
      r := NoContent;
    }

    method PasswordResetRequest(email: Email, raw: Bytes) returns (r: Response)
      requires UniqueEmails(pool.pg)
      modifies this`generated, pool
      ensures (View(), r) == ResetRequestSpec(old(View()), email, raw)
    {
      if ValidateEmail(email).Err? {
        return Failed(Invalid);
      }
      var repo := new UserRepository(pool);
      var found := repo.FindByEmail(email);
      if found.None? {
        return Done;
      }
      assert UserOf(pool.pg, email) == found;
      generated := generated + {Sha256(raw)};
      var tokens := new ResetTokenRepository(pool);
      var created := tokens.Create(found.value, Sha256(raw), redis.db.now + RESET_TTL);
      match created {
        case Ok(_) => r := Done;
        case Err(e) => r := Failed(FromData(e));
      }
    }

    method PasswordResetConfirm(raw: Bytes, password: Password) returns (r: Response)
      modifies pool, redis
      ensures (View(), r) == ResetConfirmSpec(old(View()), raw, password)
    {
      if raw == [] || ValidatePassword(password).Err? {
        return Failed(Invalid);
      }
      var tokens := new ResetTokenRepository(pool);
      var uid := tokens.Consume(Sha256(raw), redis.db.now);
      if uid.None? {
        return Failed(BadRequest);
      }
      var repo := new UserRepository(pool);
      var updated := repo.UpdatePassword(uid.value, Argon2id(password));
      if updated.Err? {
        return Failed(FromData(updated.error));
      }
      var store := new TokenStore(redis);
      var _ := store.RevokeAllSessions(uid.value);
      r := Done;
    }
  }
}
