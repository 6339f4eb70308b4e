/** What each handler answers, for every request: when it succeeds, and how it refuses. */
module HandlerAnswers {
  import opened Prelude
  import opened Redis
  import opened Jwt
  import opened Lockout
  import opened Validation
  import opened Repositories
  import opened Handlers

  ghost predicate Address(email: Email) {
    exists local, domain :: IsAddress(email, local, domain)
  }

  /** The lengths that a new password may have. */
  predicate Settable(password: Password) {
    8 <= |password| <= 128
  }

  predicate Enterable(password: Password) {
    1 <= |password| <= 128
  }

  lemma RegisterExactly(w: World, email: Email, password: Password, id: Uid)
    ensures var (t, answer) := RegisterSpec(w, email, password, id);
            var valid := Address(email) && Settable(password);
            && (answer == Registered(id) <==> valid && !EmailTaken(w.pg, email))
            && (answer == Failed(Conflict) <==> valid && EmailTaken(w.pg, email))
            && (answer == Failed(Invalid) <==> !valid)
            && (answer == Registered(id) ==>
                  id in t.pg.users && HasEmail(t.pg, id, email) && Verify(password, t.pg.users[id].hash))
            && (answer != Registered(id) ==> t == w)
  {
    ValidateEmailExact(email);
  }

  /** A login that is turned away answers alike whether the email is locked, unknown or
      given with a wrong password. */
  lemma LoginExactly(w: World, email: Email, password: Password, a: Jti, r: Jti)
    requires UniqueEmails(w.pg)
    ensures var answer := LoginSpec(w, email, password, a, r).1;
            var valid := Address(email) && Enterable(password);
            && (answer.Tokens? <==> && valid && !Locked(w.db, email)
                                    && exists u :: HasEmail(w.pg, u, email) && Verify(password, w.pg.users[u].hash))
            && (answer == Failed(Invalid) <==> !valid)
            && (valid && !answer.Tokens? ==> answer == Failed(Unauthorized))
  {
    ValidateEmailExact(email);
    if u :| HasEmail(w.pg, u, email) {
      assert EmailTaken(w.pg, email) && HasEmail(w.pg, UserOf(w.pg, email).value, email);
    }
  }

  /** A failed login counts for 900 seconds, and the lock of the tenth ends with it. */
  lemma FailureLasts(w: World, email: Email, password: Password, a: Jti, r: Jti, d: nat)
    requires ValidateLogin(email, password).Ok? && !Locked(w.db, email) && EmailTaken(w.pg, email)
    requires !LoginSpec(w, email, password, a, r).1.Tokens?
    ensures var later := Tick(LoginSpec(w, email, password, a, r).0.db, d);
            && Count(later, LockoutKey(email)) == (if d < 900 then Count(w.db, LockoutKey(email)) + 1 else 0)
            && (Locked(later, email) <==> d < 900 && Count(w.db, LockoutKey(email)) == 9)
  {}

  ghost predicate SameForOthers(pg: Pg, after: Pg, uid: Uid) {
    && (forall u :: u != uid && u in pg.users ==> u in after.users && after.users[u] == pg.users[u])
    && (forall h :: h in pg.resets && pg.resets[h].uid != uid ==> h in after.resets && after.resets[h] == pg.resets[h])
  }

  lemma ChangeExactly(w: World, leeway: nat, bearer: Claims, current: Password, next: Password)
    ensures var (t, answer) := ChangeSpec(w, leeway, bearer, current, next);
            var known := DecodeAndCheck(w.issued, bearer, Access, w.db.now, leeway).Ok?;
            && (answer == NoContent <==>
                && known && Enterable(current) && Settable(next)
                && bearer.sub in w.pg.users && Verify(current, w.pg.users[bearer.sub].hash))
            && (answer == Failed(Invalid) <==> known && !(Enterable(current) && Settable(next)))
            && (answer != NoContent ==> t == w && (answer.Failed? && answer.error in {Invalid, Unauthorized}))
            && (answer == NoContent ==>
                && bearer.sub in t.pg.users && (forall p :: Verify(p, t.pg.users[bearer.sub].hash) <==> p == next)
                && SameForOthers(w.pg, t.pg, bearer.sub))
  {}

  lemma DeleteExactly(w: World, leeway: nat, bearer: Claims)
    ensures var (t, answer) := DeleteSpec(w, leeway, bearer);
            && (answer == NoContent <==> DecodeAndCheck(w.issued, bearer, Access, w.db.now, leeway).Ok?)
            && (answer != NoContent ==> t == w && answer == Failed(Unauthorized))
            && (answer == NoContent ==>
                && bearer.sub !in t.pg.users && (forall h :: h in t.pg.resets ==> t.pg.resets[h].uid != bearer.sub)
                && SameForOthers(w.pg, t.pg, bearer.sub))
  {}

  /** A reset request answers alike for known and unknown emails, unless the token it
      generated is one that exists: then it reports a conflict. */
  lemma RequestExactly(w: World, email: Email, raw: Bytes)
    ensures ResetRequestSpec(w, email, raw).1 ==
            if !Address(email) then Failed(Invalid)
            else if EmailTaken(w.pg, email) && Sha256(raw) in w.pg.resets then Failed(Conflict)
            else Done
  {
    ValidateEmailExact(email);
  }

  /** It creates a row exactly for a known email and a new token: unused, for the holder
      of the email, for 900 seconds. Nothing else changes. */
  lemma RequestEffect(w: World, email: Email, raw: Bytes)
    ensures var t, hash := ResetRequestSpec(w, email, raw).0, Sha256(raw);
            && t == w.(pg := t.pg, generated := t.generated) && t.pg.users == w.pg.users
            && (forall h :: h in w.pg.resets ==> h in t.pg.resets && t.pg.resets[h] == w.pg.resets[h])
            && (forall h :: h in t.pg.resets && h !in w.pg.resets ==>
                  && h == hash && HasEmail(w.pg, t.pg.resets[h].uid, email)
                  && t.pg.resets[h].expiresAt == w.db.now + 900 && t.pg.resets[h].usedAt.None?)
            && (ValidateEmail(email).Ok? && EmailTaken(w.pg, email) ==> hash in t.pg.resets)
            && (ValidateEmail(email).Err? || !EmailTaken(w.pg, email) ==> t == w)
  {}

  lemma ConfirmExactly(w: World, raw: Bytes, password: Password)
    ensures var (t, answer) := ResetConfirmSpec(w, raw, password);
            var hash, valid := Sha256(raw), raw != [] && Settable(password);
            var usable := && hash in w.pg.resets && w.pg.resets[hash].usedAt.None?
                          && w.db.now < w.pg.resets[hash].expiresAt;
            && (answer == Done <==> valid && usable && w.pg.resets[hash].uid in w.pg.users)
            && (answer == Failed(Invalid) <==> !valid)
            && (answer == Failed(BadRequest) <==> valid && !usable)
            && (answer == Failed(Invalid) || answer == Failed(BadRequest) ==> t == w)
  {}

  /** Whatever a session handler refuses, it refuses as unauthorized and without a trace. */
  lemma SessionRefusals(w: World, leeway: nat, token: Claims, a: Jti, r: Jti)
    ensures var (t, answer) := RefreshSpec(w, leeway, token, a, r);
            answer.Tokens? || (t == w && answer == Failed(Unauthorized))
    ensures var (t, answer) := LogoutSpec(w, leeway, token);
            answer == NoContent || (t == w && answer == Failed(Unauthorized))
    ensures var (t, answer) := LogoutAllSpec(w, leeway, token);
            answer == NoContent || (t == w && answer == Failed(Unauthorized))
  {}
}
