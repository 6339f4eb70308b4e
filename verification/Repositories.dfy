/** The two Postgres tables and the repositories over them. Each SQL statement is one
    atomic step; `NOW()` is passed in. */
module Repositories {
  import opened Prelude

  /** Ideal Argon2id: a hash verifies exactly the password it was made from. */
  datatype PasswordHash = Argon2id(password: Password)

  /** Ideal SHA-256: injective. */
  datatype TokenHash = Sha256(raw: Bytes)

  predicate Verify(password: Password, hash: PasswordHash) {
    hash.password == password
  }

  datatype User = User(email: Email, hash: PasswordHash)

  datatype ResetRow = ResetRow(uid: Uid, expiresAt: int, usedAt: Option<int>)

  datatype Pg = Pg(users: map<Uid, User>, resets: map<TokenHash, ResetRow>)

  datatype DataError = NotFound | EmailConflict | Database

  predicate HasEmail(pg: Pg, uid: Uid, email: Email) {
    uid in pg.users && pg.users[uid].email == email
  }

  predicate EmailTaken(pg: Pg, email: Email) {
    exists u :: u in pg.users && HasEmail(pg, u, email)
  }

  /** `users.email` is UNIQUE. */
  ghost predicate UniqueEmails(pg: Pg) {
    forall u, v, e :: HasEmail(pg, u, e) && HasEmail(pg, v, e) ==> u == v
  }

  /** `password_reset_tokens.user_id` references `users(id)`. */
  ghost predicate ForeignKeys(pg: Pg) {
    forall h :: h in pg.resets ==> pg.resets[h].uid in pg.users
  }

  function Inserted(pg: Pg, id: Uid, user: User): Pg {
    if EmailTaken(pg, user.email) then pg else pg.(users := pg.users[id := user])
  }

  function WithPassword(pg: Pg, id: Uid, hash: PasswordHash): Pg {
    if id in pg.users then pg.(users := pg.users[id := pg.users[id].(hash := hash)]) else pg
  }

  /** ON DELETE CASCADE takes the user's reset tokens along. */
  function Deleted(pg: Pg, id: Uid): Pg {
    Pg(pg.users - {id}, map h | h in pg.resets && pg.resets[h].uid != id :: pg.resets[h])
  }

  predicate Consumable(pg: Pg, hash: TokenHash, now: int) {
    hash in pg.resets && pg.resets[hash].usedAt.None? && now < pg.resets[hash].expiresAt
  }

  function Consumed(pg: Pg, hash: TokenHash, now: int): Pg {
    if Consumable(pg, hash, now)
    then pg.(resets := pg.resets[hash := pg.resets[hash].(usedAt := Some(now))])
    else pg
  }

  /** A unique violation is reported as an email conflict whichever table it came from. */
  function CreateError(pg: Pg, uid: Uid, hash: TokenHash): Option<DataError> {
    if hash in pg.resets then Some(EmailConflict) else if uid !in pg.users then Some(Database) else None
  }

  function Created(pg: Pg, uid: Uid, hash: TokenHash, expiresAt: int): Pg {
    if CreateError(pg, uid, hash).Some? then pg
    else pg.(resets := pg.resets[hash := ResetRow(uid, expiresAt, None)])
  }

  lemma StatementsKeepConstraints(pg: Pg, id: Uid, user: User, hash: PasswordHash, token: TokenHash, t: int)
    requires UniqueEmails(pg) && ForeignKeys(pg)
    ensures id !in pg.users ==> UniqueEmails(Inserted(pg, id, user)) && ForeignKeys(Inserted(pg, id, user))
    ensures UniqueEmails(WithPassword(pg, id, hash)) && ForeignKeys(WithPassword(pg, id, hash))
    ensures UniqueEmails(Deleted(pg, id)) && ForeignKeys(Deleted(pg, id))
    ensures UniqueEmails(Consumed(pg, token, t)) && ForeignKeys(Consumed(pg, token, t))
    ensures UniqueEmails(Created(pg, id, token, t)) && ForeignKeys(Created(pg, id, token, t))
  {
    assert forall u, e :: HasEmail(Deleted(pg, id), u, e) ==> HasEmail(pg, u, e);
    assert forall u, e :: HasEmail(WithPassword(pg, id, hash), u, e) ==> HasEmail(pg, u, e);
    assert forall u, e :: HasEmail(Consumed(pg, token, t), u, e) ==> HasEmail(pg, u, e);
    assert forall u, e :: HasEmail(Created(pg, id, token, t), u, e) ==> HasEmail(pg, u, e);
    assert forall u, e :: u != id && HasEmail(Inserted(pg, id, user), u, e) ==> HasEmail(pg, u, e);
  }

  class Pool {
    var pg: Pg

    constructor (pg: Pg)
      ensures this.pg == pg
    {
      this.pg := pg;
    }
  }

  class UserRepository {
    const pool: Pool

    constructor (pool: Pool)
      ensures this.pool == pool
    {
      this.pool := pool;
    }

    /** `id` is the one that `gen_random_uuid()` yields. */
    method Create(id: Uid, email: Email, hash: PasswordHash) returns (r: Result<User, DataError>)
      modifies pool
      ensures pool.pg == Inserted(old(pool.pg), id, User(email, hash))
      ensures r == if EmailTaken(old(pool.pg), email) then Err(EmailConflict) else Ok(User(email, hash))
    {
      if EmailTaken(pool.pg, email) {
        return Err(EmailConflict);
      }
      pool.pg := pool.pg.(users := pool.pg.users[id := User(email, hash)]);
      return Ok(User(email, hash));
    }

    method FindByEmail(email: Email) returns (found: Option<Uid>)
      ensures found.Some? ==> HasEmail(pool.pg, found.value, email)
      ensures found.None? ==> !EmailTaken(pool.pg, email)
    {
      if u :| u in pool.pg.users && HasEmail(pool.pg, u, email) {
        found := Some(u);
      } else {
        found := None;
      }
    }

    method FindById(id: Uid) returns (found: Option<User>)
      ensures found.Some? ==> id in pool.pg.users && pool.pg.users[id] == found.value
      ensures found.None? ==> id !in pool.pg.users
    {
      found := if id in pool.pg.users then Some(pool.pg.users[id]) else None;
    }

    method UpdatePassword(id: Uid, hash: PasswordHash) returns (r: Result<(), DataError>)
      modifies pool
      ensures pool.pg == WithPassword(old(pool.pg), id, hash)
      ensures r == if id in old(pool.pg).users then Ok(()) else Err(NotFound)
    {
      if id !in pool.pg.users {
        return Err(NotFound);
      }
      pool.pg := pool.pg.(users := pool.pg.users[id := pool.pg.users[id].(hash := hash)]);
      return Ok(());
    }

    /** The user and the user's reset tokens are gone, whatever they were; every other
        row of both tables is as before. */
    method Delete(id: Uid)
      modifies pool
      ensures forall u :: u in pool.pg.users <==> u in old(pool.pg).users && u != id
      ensures forall u :: u in pool.pg.users ==> pool.pg.users[u] == old(pool.pg).users[u]
      ensures forall h :: h in pool.pg.resets <==> h in old(pool.pg).resets && old(pool.pg).resets[h].uid != id
      ensures forall h :: h in pool.pg.resets ==> pool.pg.resets[h] == old(pool.pg).resets[h]
    {
      pool.pg := Deleted(pool.pg, id);
    }
  }

  class ResetTokenRepository {
    const pool: Pool

    constructor (pool: Pool)
      ensures this.pool == pool
    {
      this.pool := pool;
    }

    method Create(uid: Uid, hash: TokenHash, expiresAt: int) returns (r: Result<(), DataError>)
      modifies pool
      ensures pool.pg == Created(old(pool.pg), uid, hash, expiresAt)
      ensures match CreateError(old(pool.pg), uid, hash) case Some(e) => r == Err(e) case None => r == Ok(())
    {
      match CreateError(pool.pg, uid, hash) {
        case Some(e) => r := Err(e);
        case None =>
          pool.pg := pool.pg.(resets := pool.pg.resets[hash := ResetRow(uid, expiresAt, None)]);
          r := Ok(());
      }
    }

    /** One conditional UPDATE: not found, used and expired tokens all answer None. */
    method Consume(hash: TokenHash, now: int) returns (uid: Option<Uid>)
      modifies pool
      ensures pool.pg == Consumed(old(pool.pg), hash, now)
      ensures uid == if Consumable(old(pool.pg), hash, now) then Some(old(pool.pg).resets[hash].uid) else None
    {
      if hash in pool.pg.resets {
        var row := pool.pg.resets[hash];
        if row.usedAt.None? && row.expiresAt > now {
          pool.pg := pool.pg.(resets := pool.pg.resets[hash := row.(usedAt := Some(now))]);
          return Some(row.uid);
        }
      }
      return None;
    }
  }
}
