/** Whole runs of the handlers against their history: the lockout follows the attempts,
    passwords stay usable, and a change asks for the last one set. */
module HandlerHistory {
  import opened Prelude
  import opened Redis
  import opened Jwt
  import opened Validation
  import opened Repositories
  import opened Handlers
  import opened HandlerRuns
  import opened HandlerAnswers
  import Lockout

  // --- The lockout of one email ---

  /** A login of the email that gets as far as its password. */
  predicate Tries(w: World, req: Request, email: Email) {
    && req.LoginReq? && req.email == email && ValidateLogin(email, req.password).Ok?
    && !Lockout.Locked(w.db, email) && EmailTaken(w.pg, email)
  }

  function AttemptOf(w: World, req: Request, answer: Response, email: Email): seq<Lockout.Event> {
    if !Tries(w, req, email) then []
    else if answer.Tokens? then [Lockout.Clear(w.db.now)]
    else [Lockout.Failure(w.db.now)]
  }

  /** The attempts on the email in a run, each with its time. */
  ghost function Attempts(leeway: nat, reqs: seq<Request>, email: Email): seq<Lockout.Event> {
    if reqs == [] then []
    else
      var init, req := reqs[..|reqs| - 1], reqs[|reqs| - 1];
      var w := After(START, leeway, init).w;
      Attempts(leeway, init, email) + AttemptOf(w, req, Handle(w, leeway, req).1, email)
  }

  /** The counter is what the log says, now and at any later time. */
  ghost predicate CounterFollows(db: Db, email: Email, log: seq<Lockout.Event>) {
    && Lockout.Chronological(log, db.now)
    && forall d: nat :: CountAfter(db, email, d) == CountAfter(Lockout.At(Lockout.Replay(email, log), db.now), email, d)
  }

  function CountAfter(db: Db, email: Email, d: nat): nat {
    Count(Tick(db, d), LockoutKey(email))
  }

  predicate SameCounter(db: Db, after: Db, email: Email) {
    var key := LockoutKey(email);
    after.now == db.now && (key in after.counters <==> key in db.counters) &&
    (key in db.counters ==> after.counters[key] == db.counters[key])
  }

  lemma SameFollows(db: Db, after: Db, email: Email, log: seq<Lockout.Event>)
    requires CounterFollows(db, email, log) && SameCounter(db, after, email)
    ensures CounterFollows(after, email, log)
  {
    forall d: nat ensures CountAfter(after, email, d) == CountAfter(db, email, d) {}
  }

  lemma TimeFollows(db: Db, email: Email, log: seq<Lockout.Event>, d: nat)
    requires CounterFollows(db, email, log)
    ensures CounterFollows(Tick(db, d), email, log)
  {
    var replayed := Lockout.Replay(email, log);
    forall more: nat
      ensures CountAfter(Tick(db, d), email, more) == CountAfter(Lockout.At(replayed, db.now + d), email, more)
    {
      assert CountAfter(db, email, d + more) == CountAfter(Lockout.At(replayed, db.now), email, d + more);
    }
  }

  lemma FailureFollows(db: Db, email: Email, log: seq<Lockout.Event>)
    requires CounterFollows(db, email, log)
    ensures CounterFollows(Lockout.FailureRecorded(db, email), email, log + [Lockout.Failure(db.now)])
  {
    var longer, replayed := log + [Lockout.Failure(db.now)], Lockout.At(Lockout.Replay(email, log), db.now);
    assert longer[..|log|] == log;
    assert CountAfter(db, email, 0) == CountAfter(replayed, email, 0);
    assert Tick(db, 0) == db && Tick(replayed, 0) == replayed;
  }

  lemma ClearFollows(db: Db, email: Email, log: seq<Lockout.Event>)
    requires CounterFollows(db, email, log)
    ensures CounterFollows(Lockout.Cleared(db, email), email, log + [Lockout.Clear(db.now)])
  {
    assert (log + [Lockout.Clear(db.now)])[..|log|] == log;
  }

  lemma LoginMovesCounter(w: World, req: Request, email: Email)
    requires req.LoginReq?
    ensures var (t, answer) := LoginSpec(w, req.email, req.password, req.accessJti, req.refreshJti);
            if !Tries(w, req, email) then SameCounter(w.db, t.db, email)
            else if answer.Tokens? then SameCounter(Lockout.Cleared(w.db, email), t.db, email)
            else t.db == Lockout.FailureRecorded(w.db, email)
  {}

  lemma OthersKeepCounters(w: World, leeway: nat, req: Request)
    requires !req.LoginReq? && !req.Elapse?
    ensures var t := Handle(w, leeway, req).0; t.db.counters == w.db.counters && t.db.now == w.db.now
  {}

  lemma AttemptStep(w: World, leeway: nat, req: Request, email: Email, log: seq<Lockout.Event>)
    requires CounterFollows(w.db, email, log)
    ensures var (t, answer) := Handle(w, leeway, req);
            CounterFollows(t.db, email, log + AttemptOf(w, req, answer, email))
  {
    var (t, answer) := Handle(w, leeway, req);
    assert log + [] == log;
    if req.Elapse? {
      TimeFollows(w.db, email, log, req.d);
    } else if !req.LoginReq? {
      OthersKeepCounters(w, leeway, req);
      SameFollows(w.db, t.db, email, log);
    } else {
      LoginMovesCounter(w, req, email);
      if !Tries(w, req, email) {
        SameFollows(w.db, t.db, email, log);
      } else if answer.Tokens? {
        ClearFollows(w.db, email, log);
        SameFollows(Lockout.Cleared(w.db, email), t.db, email, log + [Lockout.Clear(w.db.now)]);
      } else {
        FailureFollows(w.db, email, log);
      }
    }
  }

  lemma {:induction false} CounterFollowsAttempts(leeway: nat, reqs: seq<Request>, email: Email)
    ensures CounterFollows(After(START, leeway, reqs).w.db, email, Attempts(leeway, reqs, email))
  {
    if reqs != [] {
      var init := reqs[..|reqs| - 1];
      CounterFollowsAttempts(leeway, init, email);
      AttemptStep(After(START, leeway, init).w, leeway, reqs[|reqs| - 1], email, Attempts(leeway, init, email));
    }
  }

  ghost predicate TenFailures(log: seq<Lockout.Event>, now: int) {
    exists k: nat :: k >= 10 && Lockout.IsStreak(log, k, now)
  }

  lemma FollowsMeansLocked(db: Db, email: Email, log: seq<Lockout.Event>)
    requires CounterFollows(db, email, log)
    ensures Lockout.Locked(db, email) <==> TenFailures(log, db.now)
  {
    Lockout.LockedMeansStreak(email, log, db.now);
    var replayed := Lockout.At(Lockout.Replay(email, log), db.now);
    assert CountAfter(db, email, 0) == CountAfter(replayed, email, 0);
    assert Tick(db, 0) == db && Tick(replayed, 0) == replayed;
  }

  /** After every run of all handlers, an email is locked exactly when the attempts on it
      end in ten failures, each gap and the time since the last one below 900 seconds. */
  lemma LockedMeansTenFailures(leeway: nat, reqs: seq<Request>, email: Email)
    ensures var w := After(START, leeway, reqs).w;
            Lockout.Locked(w.db, email) <==> TenFailures(Attempts(leeway, reqs, email), w.db.now)
  {
    CounterFollowsAttempts(leeway, reqs, email);
    FollowsMeansLocked(After(START, leeway, reqs).w.db, email, Attempts(leeway, reqs, email));
  }

  // --- Passwords ---

  ghost predicate RowsUsable(pg: Pg) {
    forall u :: u in pg.users ==> Settable(pg.users[u].hash.password)
  }

  lemma UsableStep(w: World, leeway: nat, req: Request)
    requires RowsUsable(w.pg) && ForeignKeys(w.pg)
    ensures RowsUsable(Handle(w, leeway, req).0.pg)
  {
    EventExplains(w, leeway, req);
    match req
    case RegisterReq(email, password, id) => RegisterExactly(w, email, password, id);
    case ChangeReq(bearer, current, new_) => ChangeExactly(w, leeway, bearer, current, new_);
    case ConfirmReq(raw, password) => ConfirmExactly(w, raw, password);
    case _ =>
  }

  lemma {:induction false} RowsStayUsable(leeway: nat, reqs: seq<Request>)
    requires FreshRun(START, leeway, reqs)
    ensures RowsUsable(After(START, leeway, reqs).w.pg)
  {
    if reqs != [] {
      FreshInit(START, leeway, reqs);
      RowsStayUsable(leeway, reqs[..|reqs| - 1]);
      StartSound();
      InvariantAfter(START, leeway, reqs[..|reqs| - 1]);
      UsableStep(After(START, leeway, reqs[..|reqs| - 1]).w, leeway, reqs[|reqs| - 1]);
    }
  }

  /** After every run, no user is shut out by the length checks: the password in a row
      passes those of login and, as the current one, those of a change. */
  lemma NobodyShutOut(leeway: nat, reqs: seq<Request>, u: Uid, email: Email, next: Password)
    requires FreshRun(START, leeway, reqs) && u in After(START, leeway, reqs).w.pg.users
    ensures var password := After(START, leeway, reqs).w.pg.users[u].hash.password;
            && 8 <= |password| <= 128
            && ValidateLogin(email, password) == ValidateEmail(email)
            && ValidateChange(password, next) == ValidatePassword(next)
  {
    RowsStayUsable(leeway, reqs);
    SettablePasswordsAreUsable(email, After(START, leeway, reqs).w.pg.users[u].hash.password, next);
  }

  /** After every run, a well-formed change behind a valid access token succeeds exactly
      if its current password is the last one set for the bearer. */
  lemma ChangeFollowsHistory(leeway: nat, reqs: seq<Request>, bearer: Claims, current: Password, next: Password)
    requires FreshRun(START, leeway, reqs)
    ensures var s := After(START, leeway, reqs);
            ChangeSpec(s.w, leeway, bearer, current, next).1 == NoContent <==>
            && DecodeAndCheck(s.w.issued, bearer, Access, s.w.db.now, leeway).Ok?
            && Enterable(current) && Settable(next) && SetsPassword(LastEvent(s.log, bearer.sub), current)
  {
    var s := After(START, leeway, reqs);
    StartSound();
    InvariantAfter(START, leeway, reqs);
    ChangeExactly(s.w, leeway, bearer, current, next);
    assert RowFollows(s.w.pg, s.log, bearer.sub);
  }
}
