/** Whole runs of the handlers, in any order and with any arguments, each handler one
    step. Generated ids and tokens are fresh. */
module HandlerRuns {
  import opened Prelude
  import opened Redis
  import opened SessionStore
  import opened Lockout
  import opened Jwt
  import opened Validation
  import opened Repositories
  import opened Handlers

  datatype Request =
    | RegisterReq(email: Email, password: Password, id: Uid)
    | LoginReq(email: Email, password: Password, accessJti: Jti, refreshJti: Jti)
    | RefreshReq(token: Claims, accessJti: Jti, refreshJti: Jti)
    | LogoutReq(token: Claims)
    | LogoutAllReq(bearer: Claims)
    | ChangeReq(bearer: Claims, current: Password, new_: Password)
    | DeleteReq(bearer: Claims)
    | ResetReq(email: Email, raw: Bytes)
    | ConfirmReq(raw: Bytes, password: Password)
    | Elapse(d: nat)

  ghost function Handle(w: World, leeway: nat, req: Request): (World, Response) {
    match req
    case RegisterReq(email, password, id) => RegisterSpec(w, email, password, id)
    case LoginReq(email, password, accessJti, refreshJti) => LoginSpec(w, email, password, accessJti, refreshJti)
    case RefreshReq(token, accessJti, refreshJti) => RefreshSpec(w, leeway, token, accessJti, refreshJti)
    case LogoutReq(token) => LogoutSpec(w, leeway, token)
    case LogoutAllReq(bearer) => LogoutAllSpec(w, leeway, bearer)
    case ChangeReq(bearer, current, new_) => ChangeSpec(w, leeway, bearer, current, new_)
    case DeleteReq(bearer) => DeleteSpec(w, leeway, bearer)
    case ResetReq(email, raw) => ResetRequestSpec(w, email, raw)
    case ConfirmReq(raw, password) => ResetConfirmSpec(w, raw, password)
    case Elapse(d) => (w.(db := Tick(w.db, d)), Done)
  }

  // --- The history that clients see ---

  datatype Event =
    | SignedUp(uid: Uid, email: Email, password: Password)
    | PasswordSet(uid: Uid, password: Password)
    | Left(uid: Uid)

  function EventOf(w: World, req: Request, answer: Response): seq<Event> {
    match req
    case RegisterReq(email, password, id) => if answer.Registered? then [SignedUp(id, email, password)] else []
    case ChangeReq(bearer, _, new_) => if answer.NoContent? then [PasswordSet(bearer.sub, new_)] else []
    case DeleteReq(bearer) => if answer.NoContent? then [Left(bearer.sub)] else []
    case ConfirmReq(raw, password) =>
      if answer.Done? && Sha256(raw) in w.pg.resets then [PasswordSet(w.pg.resets[Sha256(raw)].uid, password)] else []
    case _ => []
  }

  /** A state together with the events so far. */
  datatype Logged = Logged(w: World, log: seq<Event>)

  ghost function Step(s: Logged, leeway: nat, req: Request): Logged {
    var (w, answer) := Handle(s.w, leeway, req);
    Logged(w, s.log + EventOf(s.w, req, answer))
  }

  ghost function After(s: Logged, leeway: nat, reqs: seq<Request>): Logged {
    if reqs == [] then s else Step(After(s, leeway, reqs[..|reqs| - 1]), leeway, reqs[|reqs| - 1])
  }

  ghost predicate Known(log: seq<Event>, uid: Uid) {
    exists i :: 0 <= i < |log| && log[i].uid == uid
  }

  /** Random values: new to the service. */
  ghost predicate Fresh(s: Logged, req: Request) {
    match req
    case RegisterReq(_, _, id) => !Known(s.log, id)
    case LoginReq(_, _, a, r) => a !in s.w.issued && r !in s.w.issued && a != r
    case RefreshReq(_, a, r) => a !in s.w.issued && r !in s.w.issued && a != r
    case ResetReq(_, raw) => Sha256(raw) !in s.w.generated
    case _ => true
  }

  ghost predicate FreshRun(s: Logged, leeway: nat, reqs: seq<Request>) {
    forall i :: 0 <= i < |reqs| ==> Fresh(After(s, leeway, reqs[..i]), reqs[i])
  }

  const START := Logged(World(EMPTY_DB, Pg(map[], map[]), map[], {}), [])

  // --- Sessions ---

  ghost predicate SessionsSound(db: Db, issued: Issued) {
    && Consistent(db)
    && (forall j :: Mentioned(db, j) ==> j in issued)
    && (forall j :: j in db.refresh ==> j in issued && issued[j].sub == db.refresh[j].uid)
  }

  lemma CallKeepsSound(db: Db, issued: Issued, call: Call)
    requires SessionsSound(db, issued)
    requires call.Store? ==> !Mentioned(db, call.jti) && call.jti in issued && issued[call.jti].sub == call.uid
    ensures SessionsSound(Do(db, call), issued)
  {
    CallRefines(db, call);
    var post := Do(db, call);
    forall j | Mentioned(post, j) ensures j in issued {
      OnlyStoresMention(db, call, j);
    }
    forall j | j in post.refresh ensures j in issued && issued[j].sub == post.refresh[j].uid {
      assert (j in db.refresh && post.refresh[j] == db.refresh[j]) || (call.Store? && j == call.jti);
    }
  }

  /** Lockout counters are kept under other keys. */
  lemma CountersApart(db: Db, issued: Issued, counters: map<CounterKey, Counter>)
    requires SessionsSound(db, issued)
    ensures SessionsSound(db.(counters := counters), issued)
    ensures Live(db.(counters := counters)) == Live(db)
  {
    var post := db.(counters := counters);
    forall j ensures LiveKey(post, j) == LiveKey(db, j) && (Mentioned(post, j) ==> Mentioned(db, j)) {}
    forall j | LiveKey(post, j) ensures Indexed(post, j) {
      assert LiveKey(db, j) && Indexed(db, j);
    }
    forall u ensures Members(post, u) == Members(db, u) {}
  }

  lemma MoreIssued(db: Db, issued: Issued, more: Issued)
    requires SessionsSound(db, issued)
    requires forall j :: j in issued ==> j in more && more[j] == issued[j]
    ensures SessionsSound(db, more)
  {}

  lemma IssueKeepsSound(w: World, sub: Uid, email: Email, accessJti: Jti, refreshJti: Jti)
    requires SessionsSound(w.db, w.issued)
    requires accessJti !in w.issued && refreshJti !in w.issued && accessJti != refreshJti
    ensures var t := IssueSpec(w, sub, email, accessJti, refreshJti).0; SessionsSound(t.db, t.issued)
  {
    var t := IssueSpec(w, sub, email, accessJti, refreshJti).0;
    MoreIssued(w.db, w.issued, t.issued);
    CallKeepsSound(w.db, t.issued, Store(refreshJti, sub));
  }

  lemma LoginKeepsSound(w: World, email: Email, password: Password, a: Jti, r: Jti)
    requires SessionsSound(w.db, w.issued) && a !in w.issued && r !in w.issued && a != r
    ensures var t := LoginSpec(w, email, password, a, r).0; SessionsSound(t.db, t.issued)
  {
    if UserOf(w.pg, email).Some? {
      var u := UserOf(w.pg, email).value;
      if Verify(password, w.pg.users[u].hash) {
        CountersApart(w.db, w.issued, Cleared(w.db, email).counters);
        IssueKeepsSound(w.(db := Cleared(w.db, email)), u, w.pg.users[u].email, a, r);
      } else {
        CountersApart(w.db, w.issued, FailureRecorded(w.db, email).counters);
      }
    }
  }

  lemma RefreshKeepsSound(w: World, leeway: nat, token: Claims, a: Jti, r: Jti)
    requires SessionsSound(w.db, w.issued) && a !in w.issued && r !in w.issued && a != r
    ensures var t := RefreshSpec(w, leeway, token, a, r).0; SessionsSound(t.db, t.issued)
  {
    CallKeepsSound(w.db, w.issued, Revoke(token.jti));
    IssueKeepsSound(w.(db := Revoked(w.db, token.jti)), token.sub, token.email, a, r);
  }

  lemma SessionsStep(s: Logged, leeway: nat, req: Request)
    requires SessionsSound(s.w.db, s.w.issued) && Fresh(s, req)
    ensures var t := Handle(s.w, leeway, req).0; SessionsSound(t.db, t.issued)
  {
    var w := s.w;
    match req
    case LoginReq(email, password, a, r) => LoginKeepsSound(w, email, password, a, r);
    case RefreshReq(token, a, r) => RefreshKeepsSound(w, leeway, token, a, r);
    case LogoutReq(token) => CallKeepsSound(w.db, w.issued, Revoke(token.jti));
    case LogoutAllReq(bearer) => CallKeepsSound(w.db, w.issued, RevokeAll(bearer.sub));
    case ConfirmReq(raw, _) =>
      if Sha256(raw) in w.pg.resets {
        CallKeepsSound(w.db, w.issued, RevokeAll(w.pg.resets[Sha256(raw)].uid));
      }
    case Elapse(d) => CallKeepsSound(w.db, w.issued, SessionStore.Elapse(d));
    case _ =>
  }

  // --- Tables ---

  ghost predicate TablesSound(w: World) {
    UniqueEmails(w.pg) && ForeignKeys(w.pg) && w.pg.resets.Keys <= w.generated
  }

  function LastEvent(log: seq<Event>, uid: Uid): Option<Event> {
    if log == [] then None
    else if log[|log| - 1].uid == uid then Some(log[|log| - 1])
    else LastEvent(log[..|log| - 1], uid)
  }

  function EmailOf(log: seq<Event>, uid: Uid): Option<Email> {
    if log == [] then None
    else
      var e := log[|log| - 1];
      if e.SignedUp? && e.uid == uid then Some(e.email) else EmailOf(log[..|log| - 1], uid)
  }

  predicate SetsPassword(e: Option<Event>, password: Password) {
    e.Some? && !e.value.Left? && e.value.password == password
  }

  predicate HasLeft(e: Option<Event>) {
    e.None? || e.value.Left?
  }

  /** The row of `uid` is what the history says. */
  ghost predicate RowFollows(pg: Pg, log: seq<Event>, uid: Uid) {
    && (uid in pg.users <==> !HasLeft(LastEvent(log, uid)))
    && (uid in pg.users ==> Some(pg.users[uid].email) == EmailOf(log, uid)
                            && SetsPassword(LastEvent(log, uid), pg.users[uid].hash.password))
  }

  ghost predicate RowsFollow(pg: Pg, log: seq<Event>) {
    forall u :: RowFollows(pg, log, u)
  }

  lemma Appended(log: seq<Event>, e: Event, uid: Uid)
    ensures LastEvent(log + [e], uid) == if e.uid == uid then Some(e) else LastEvent(log, uid)
    ensures EmailOf(log + [e], uid) == if e.SignedUp? && e.uid == uid then Some(e.email) else EmailOf(log, uid)
  {}

  lemma RowsFollowAppend(pg: Pg, log: seq<Event>, e: Event, pg': Pg)
    requires RowsFollow(pg, log) && Explains(pg, e, pg')
    ensures RowsFollow(pg', log + [e])
  {
    forall u ensures RowFollows(pg', log + [e], u) {
      assert RowFollows(pg, log, u);
      Appended(log, e, u);
    }
  }

  lemma NewIdHasNoRow(s: Logged, id: Uid)
    requires RowsFollow(s.w.pg, s.log) && !Known(s.log, id)
    ensures id !in s.w.pg.users
  {
    Unknown(s.log, id);
    assert RowFollows(s.w.pg, s.log, id);
  }

  lemma RequestKeepsTables(w: World, email: Email, raw: Bytes)
    requires TablesSound(w)
    ensures TablesSound(ResetRequestSpec(w, email, raw).0)
  {
    var nobody := User([], Argon2id([]));
    if UserOf(w.pg, email).Some? {
      var u, expiresAt := UserOf(w.pg, email).value, w.db.now + RESET_TTL;
      StatementsKeepConstraints(w.pg, u, nobody, nobody.hash, Sha256(raw), expiresAt);
    }
  }

  lemma TablesStep(s: Logged, leeway: nat, req: Request)
    requires TablesSound(s.w) && RowsFollow(s.w.pg, s.log) && Fresh(s, req)
    ensures TablesSound(Step(s, leeway, req).w)
  {
    var w, nobody := s.w, User([], Argon2id([]));
    match req
    case RegisterReq(email, password, id) =>
      NewIdHasNoRow(s, id);
      StatementsKeepConstraints(w.pg, id, User(email, Argon2id(password)), nobody.hash, Sha256([]), 0);
    case ChangeReq(bearer, _, new_) =>
      StatementsKeepConstraints(w.pg, bearer.sub, nobody, Argon2id(new_), Sha256([]), 0);
    case DeleteReq(bearer) => StatementsKeepConstraints(w.pg, bearer.sub, nobody, nobody.hash, Sha256([]), 0);
    case ResetReq(email, raw) => RequestKeepsTables(w, email, raw);
    case ConfirmReq(raw, password) => ConfirmKeepsTables(w, raw, password);
    case _ =>
  }

  lemma ConfirmKeepsTables(w: World, raw: Bytes, password: Password)
    requires TablesSound(w)
    ensures TablesSound(ResetConfirmSpec(w, raw, password).0)
  {
    var hash, nobody := Sha256(raw), User([], Argon2id([]));
    StatementsKeepConstraints(w.pg, 0, nobody, nobody.hash, hash, w.db.now);
    if Consumable(w.pg, hash, w.db.now) {
      var consumed, uid := Consumed(w.pg, hash, w.db.now), w.pg.resets[hash].uid;
      StatementsKeepConstraints(consumed, uid, nobody, Argon2id(password), hash, 0);
    }
  }

  lemma {:induction false} Unknown(log: seq<Event>, uid: Uid)
    requires !Known(log, uid)
    ensures LastEvent(log, uid) == None
  {
    if log != [] {
      var init := log[..|log| - 1];
      assert log[|log| - 1].uid != uid;
      assert forall i :: 0 <= i < |init| ==> init[i] == log[i];
      Unknown(init, uid);
    }
  }

  lemma RowsStay(pg: Pg, log: seq<Event>, pg': Pg)
    requires RowsFollow(pg, log) && pg'.users == pg.users
    ensures RowsFollow(pg', log + [])
  {
    assert log + [] == log;
    forall u ensures RowFollows(pg', log, u) {
      assert RowFollows(pg, log, u);
    }
  }

  lemma RowsStep(s: Logged, leeway: nat, req: Request)
    requires TablesSound(s.w) && RowsFollow(s.w.pg, s.log) && Fresh(s, req)
    ensures var t := Step(s, leeway, req); RowsFollow(t.w.pg, t.log)
  {
    var (w, answer) := Handle(s.w, leeway, req);
    var events := EventOf(s.w, req, answer);
    EventExplains(s.w, leeway, req);
    if events == [] {
      RowsStay(s.w.pg, s.log, w.pg);
    } else {
      RowsFollowAppend(s.w.pg, s.log, events[0], w.pg);
    }
  }

  /** What an event does to the users table. */
  ghost predicate Explains(pg: Pg, e: Event, pg': Pg) {
    match e
    case SignedUp(id, email, password) => pg'.users == pg.users[id := User(email, Argon2id(password))]
    case PasswordSet(id, password) =>
      id in pg.users && pg'.users == pg.users[id := pg.users[id].(hash := Argon2id(password))]
    case Left(id) => pg'.users == pg.users - {id}
  }

  lemma EventExplains(w: World, leeway: nat, req: Request)
    requires ForeignKeys(w.pg)
    ensures var (t, answer) := Handle(w, leeway, req);
            var events := EventOf(w, req, answer);
            if events == [] then t.pg.users == w.pg.users else |events| == 1 && Explains(w.pg, events[0], t.pg)
  {}

  // --- Runs ---

  ghost predicate Invariant(s: Logged) {
    SessionsSound(s.w.db, s.w.issued) && TablesSound(s.w) && RowsFollow(s.w.pg, s.log)
  }

  lemma InvariantStep(s: Logged, leeway: nat, req: Request)
    requires Invariant(s) && Fresh(s, req)
    ensures Invariant(Step(s, leeway, req))
  {
    SessionsStep(s, leeway, req);
    TablesStep(s, leeway, req);
    RowsStep(s, leeway, req);
  }

  lemma FreshInit(s: Logged, leeway: nat, reqs: seq<Request>)
    requires FreshRun(s, leeway, reqs) && reqs != []
    ensures FreshRun(s, leeway, reqs[..|reqs| - 1])
    ensures Fresh(After(s, leeway, reqs[..|reqs| - 1]), reqs[|reqs| - 1])
  {
    var init := reqs[..|reqs| - 1];
    forall i | 0 <= i < |init| ensures Fresh(After(s, leeway, init[..i]), init[i]) {
      assert init[..i] == reqs[..i];
    }
  }

  lemma {:induction false} InvariantAfter(s: Logged, leeway: nat, reqs: seq<Request>)
    requires Invariant(s) && FreshRun(s, leeway, reqs)
    ensures Invariant(After(s, leeway, reqs))
  {
    if reqs != [] {
      FreshInit(s, leeway, reqs);
      InvariantAfter(s, leeway, reqs[..|reqs| - 1]);
      InvariantStep(After(s, leeway, reqs[..|reqs| - 1]), leeway, reqs[|reqs| - 1]);
    }
  }

  lemma StartSound()
    ensures Invariant(START)
  {}

  lemma LoginOutcome(w: World, email: Email, password: Password, a: Jti, r: Jti)
    requires ValidateLogin(email, password).Ok? && !Locked(w.db, email)
    ensures var found := UserOf(w.pg, email);
            LoginSpec(w, email, password, a, r).1.Tokens? <==>
            found.Some? && Verify(password, w.pg.users[found.value].hash)
  {}

  /** Some user signed up with the email, has not left since, and set this password last. */
  ghost predicate PasswordIs(log: seq<Event>, email: Email, password: Password) {
    exists u :: EmailOf(log, u) == Some(email) && SetsPassword(LastEvent(log, u), password)
  }

  lemma LoginFollows(s: Logged, email: Email, password: Password, a: Jti, r: Jti)
    requires UniqueEmails(s.w.pg) && RowsFollow(s.w.pg, s.log)
    requires ValidateLogin(email, password).Ok? && !Locked(s.w.db, email)
    ensures LoginSpec(s.w, email, password, a, r).1.Tokens? <==> PasswordIs(s.log, email, password)
  {
    LoginOutcome(s.w, email, password, a, r);
    var found := UserOf(s.w.pg, email);
    if found.Some? {
      assert RowFollows(s.w.pg, s.log, found.value) && HasEmail(s.w.pg, found.value, email);
    }
    if PasswordIs(s.log, email, password) {
      var u :| EmailOf(s.log, u) == Some(email) && SetsPassword(LastEvent(s.log, u), password);
      assert RowFollows(s.w.pg, s.log, u);
      assert HasEmail(s.w.pg, u, email) && EmailTaken(s.w.pg, email);
      assert HasEmail(s.w.pg, found.value, email);
      assert found.value == u && Verify(password, s.w.pg.users[u].hash);
    }
  }

  /** A well-formed login on an unlocked email succeeds exactly when its password is
      the last one set for the user who holds the email. */
  ghost predicate LoginMatchesHistory(s: Logged, email: Email, password: Password, a: Jti, r: Jti) {
    ValidateLogin(email, password).Ok? && !Locked(s.w.db, email) ==>
      (LoginSpec(s.w, email, password, a, r).1.Tokens? <==> PasswordIs(s.log, email, password))
  }

  /** After every run from the start. */
  lemma PasswordsFollowHistory(leeway: nat, reqs: seq<Request>, email: Email, password: Password, a: Jti, r: Jti)
    requires FreshRun(START, leeway, reqs)
    ensures LoginMatchesHistory(After(START, leeway, reqs), email, password, a, r)
  {
    StartSound();
    InvariantAfter(START, leeway, reqs);
    var s := After(START, leeway, reqs);
    if ValidateLogin(email, password).Ok? && !Locked(s.w.db, email) {
      LoginFollows(s, email, password, a, r);
    }
  }

  // --- What the session handlers do to the plain map of live sessions ---

  lemma IssueEffect(w: World, sub: Uid, email: Email, a: Jti, r: Jti, leeway: nat)
    requires SessionsSound(w.db, w.issued) && a !in w.issued && r !in w.issued && a != r
    ensures var (t, answer) := IssueSpec(w, sub, email, a, r);
            && Live(t.db) == Live(w.db)[r := Session(sub, w.db.now + REFRESH_TTL)]
            && t.db.counters == w.db.counters && t.db.now == w.db.now
            && answer.Tokens? && answer.access.sub == answer.refresh.sub == sub
            && answer.access.email == answer.refresh.email == email
            && DecodeAndCheck(t.issued, answer.access, Access, t.db.now, leeway) == Ok(answer.access)
            && DecodeAndCheck(t.issued, answer.refresh, Refresh, t.db.now, leeway) == Ok(answer.refresh)
            && answer.access.jti == a && answer.refresh.jti == r
            && answer.access.iat == answer.refresh.iat == w.db.now
  {}

  /** A refresh succeeds exactly for a genuine, unexpired, live token. It ends that
      session and begins one for the same subject and email, or changes nothing. */
  lemma RefreshEffect(w: World, leeway: nat, token: Claims, a: Jti, r: Jti)
    requires SessionsSound(w.db, w.issued) && a !in w.issued && r !in w.issued && a != r
    ensures var (t, answer) := RefreshSpec(w, leeway, token, a, r);
            && (answer.Tokens? <==>
                DecodeAndCheck(w.issued, token, Refresh, w.db.now, leeway).Ok? && token.jti in Live(w.db))
            && (answer.Tokens? ==>
                && Live(t.db) == (Live(w.db) - {token.jti})[r := Session(token.sub, w.db.now + REFRESH_TTL)]
                && answer.refresh.jti == r
                && answer.refresh.sub == answer.access.sub == token.sub
                && answer.refresh.email == answer.access.email == token.email
                && Live(w.db)[token.jti].uid == token.sub
                && !RefreshSpec(t, leeway, token, a, r).1.Tokens?)
            && (!answer.Tokens? ==> t == w)
  {
    var mid := w.(db := Revoked(w.db, token.jti));
    CallKeepsSound(w.db, w.issued, Revoke(token.jti));
    RevokeRefines(w.db, token.jti);
    IssueEffect(mid, token.sub, token.email, a, r, leeway);
    if RefreshSpec(w, leeway, token, a, r).1.Tokens? {
      assert token.jti != r;
      assert token.jti !in Live(RefreshSpec(w, leeway, token, a, r).0.db);
    }
  }

  lemma LoginIssues(w: World, email: Email, u: Uid, a: Jti, r: Jti)
    requires SessionsSound(w.db, w.issued) && a !in w.issued && r !in w.issued && a != r && u in w.pg.users
    ensures var (t, answer) := IssueSpec(w.(db := Cleared(w.db, email)), u, w.pg.users[u].email, a, r);
            && t.pg == w.pg && answer.Tokens? && answer.refresh.jti == r && answer.refresh.sub == answer.access.sub == u
            && answer.access.email == answer.refresh.email == w.pg.users[u].email
            && Live(t.db) == Live(w.db)[r := Session(u, w.db.now + REFRESH_TTL)]
  {
    CountersApart(w.db, w.issued, Cleared(w.db, email).counters);
    IssueEffect(w.(db := Cleared(w.db, email)), u, w.pg.users[u].email, a, r, 0);
  }

  /** A login adds one session for the holder of the email, or none. */
  lemma LoginEffect(w: World, email: Email, password: Password, a: Jti, r: Jti)
    requires SessionsSound(w.db, w.issued) && a !in w.issued && r !in w.issued && a != r
    ensures var (t, answer) := LoginSpec(w, email, password, a, r);
            && t.pg == w.pg
            && (answer.Tokens? ==>
                && EmailTaken(w.pg, email) && answer.refresh.jti == r
                && answer.access.sub == answer.refresh.sub && HasEmail(w.pg, answer.refresh.sub, email)
                && answer.access.email == answer.refresh.email == email
                && Live(t.db) == Live(w.db)[r := Session(answer.refresh.sub, w.db.now + REFRESH_TTL)])
            && (!answer.Tokens? ==> Live(t.db) == Live(w.db) && t.issued == w.issued)
            && (Locked(w.db, email) ==> t == w)
  {
    var found := UserOf(w.pg, email);
    if found.Some? {
      LoginIssues(w, email, found.value, a, r);
      CountersApart(w.db, w.issued, FailureRecorded(w.db, email).counters);
    }
  }

  /** A login zeroes the counter if it succeeds, and raises it by exactly one for a wrong
      password of a known email that is not locked. Any other attempt leaves it, and
      no attempt touches another counter. */
  lemma LoginCounts(w: World, email: Email, password: Password, a: Jti, r: Jti)
    ensures var (t, answer) := LoginSpec(w, email, password, a, r);
            var tried := ValidateLogin(email, password).Ok? && !Locked(w.db, email) && EmailTaken(w.pg, email);
            var before := Count(w.db, LockoutKey(email));
            && Count(t.db, LockoutKey(email)) == (if answer.Tokens? then 0 else if tried then before + 1 else before)
            && forall other :: other != LockoutKey(email) ==> Count(t.db, other) == Count(w.db, other)
  {}

  /** A logout succeeds for every valid refresh token and ends its session, if it still
      has one. A logout from everywhere succeeds for every valid access token and ends
      all of the bearer's sessions. Neither touches another user's, nor anything else. */
  lemma LogoutEffect(w: World, leeway: nat, token: Claims)
    requires SessionsSound(w.db, w.issued)
    ensures var (t, answer) := LogoutSpec(w, leeway, token);
            && (answer == NoContent <==> DecodeAndCheck(w.issued, token, Refresh, w.db.now, leeway).Ok?)
            && Live(t.db) == (if answer == NoContent then Live(w.db) - {token.jti} else Live(w.db))
            && t == w.(db := t.db) && t.db.counters == w.db.counters && SessionsSound(t.db, t.issued)
    ensures var (t, answer) := LogoutAllSpec(w, leeway, token);
            && (answer == NoContent <==> DecodeAndCheck(w.issued, token, Access, w.db.now, leeway).Ok?)
            && Live(t.db) == (if answer == NoContent
                              then map j | j in Live(w.db) && Live(w.db)[j].uid != token.sub :: Live(w.db)[j]
                              else Live(w.db))
            && t == w.(db := t.db) && t.db.counters == w.db.counters && SessionsSound(t.db, t.issued)
  {
    RevokeRefines(w.db, token.jti);
    RevokeAllRefines(w.db, token.sub);
    CallKeepsSound(w.db, w.issued, Revoke(token.jti));
    CallKeepsSound(w.db, w.issued, RevokeAll(token.sub));
  }

  /** The pair that a login hands out: the refresh token can be exchanged for 7 days
      and not a second more, the access token opens requests for 15 minutes and the
      leeway, and neither stands in for the other. */
  lemma LoginThenUse(w: World, email: Email, password: Password, a: Jti, r: Jti, d: nat, leeway: nat, b: Jti, q: Jti)
    requires SessionsSound(w.db, w.issued) && a !in w.issued && r !in w.issued && a != r
    requires LoginSpec(w, email, password, a, r).1.Tokens?
    ensures var (t, answer) := LoginSpec(w, email, password, a, r);
            var later := t.(db := Tick(t.db, d));
            && (RefreshSpec(later, leeway, answer.refresh, b, q).1.Tokens? <==> d < 604800)
            && (LogoutAllSpec(later, leeway, answer.access).1 == NoContent <==> d <= 900 + leeway)
            && RefreshSpec(later, leeway, answer.access, b, q) == (later, Failed(Unauthorized))
            && LogoutAllSpec(later, leeway, answer.refresh) == (later, Failed(Unauthorized))
  {
    LoginEffect(w, email, password, a, r);
    var (t, answer) := LoginSpec(w, email, password, a, r);
    assert r in Live(t.db) && Live(t.db)[r].expiry == t.db.now + REFRESH_TTL;
    PairLasts(t, answer.access, answer.refresh, d, leeway, b, q);
  }

  lemma PairLasts(t: World, access: Claims, refresh: Claims, d: nat, leeway: nat, b: Jti, q: Jti)
    requires Genuine(t.issued, access) && access.kind == Access && access.exp == t.db.now + ACCESS_TTL
    requires Genuine(t.issued, refresh) && refresh.kind == Refresh && refresh.exp == t.db.now + REFRESH_TTL
    requires refresh.jti in Live(t.db) && Live(t.db)[refresh.jti].expiry == t.db.now + REFRESH_TTL
    ensures var later := t.(db := Tick(t.db, d));
            && (RefreshSpec(later, leeway, refresh, b, q).1.Tokens? <==> d < 604800)
            && (LogoutAllSpec(later, leeway, access).1 == NoContent <==> d <= 900 + leeway)
            && RefreshSpec(later, leeway, access, b, q) == (later, Failed(Unauthorized))
            && LogoutAllSpec(later, leeway, refresh) == (later, Failed(Unauthorized))
  {}

  /** The pair that a refresh hands out is as good as one from a login, for the same
      subject and email; the token it took is not. */
  lemma RefreshThenUse(w: World, leeway: nat, token: Claims, a: Jti, r: Jti, d: nat, b: Jti, q: Jti)
    requires SessionsSound(w.db, w.issued) && a !in w.issued && r !in w.issued && a != r
    requires RefreshSpec(w, leeway, token, a, r).1.Tokens?
    ensures var (t, answer) := RefreshSpec(w, leeway, token, a, r);
            var later := t.(db := Tick(t.db, d));
            && answer.access.sub == answer.refresh.sub == token.sub
            && answer.access.email == answer.refresh.email == token.email
            && (RefreshSpec(later, leeway, answer.refresh, b, q).1.Tokens? <==> d < 604800)
            && (LogoutAllSpec(later, leeway, answer.access).1 == NoContent <==> d <= 900 + leeway)
            && RefreshSpec(later, leeway, answer.access, b, q) == (later, Failed(Unauthorized))
            && LogoutAllSpec(later, leeway, answer.refresh) == (later, Failed(Unauthorized))
            && RefreshSpec(later, leeway, token, b, q) == (later, Failed(Unauthorized))
  {
    RefreshEffect(w, leeway, token, a, r);
    var (t, answer) := RefreshSpec(w, leeway, token, a, r);
    assert r in Live(t.db) && Live(t.db)[r].expiry == t.db.now + REFRESH_TTL;
    assert token.jti !in Live(t.db);
    PairLasts(t, answer.access, answer.refresh, d, leeway, b, q);
  }

  // --- Password reset, end to end ---

  /** A reset asked for and confirmed `d` seconds later succeeds exactly within 15
      minutes, for the user who holds the email, and the new password then opens an
      unlocked login. */
  lemma RequestThenConfirm(s: Logged, email: Email, raw: Bytes, d: nat, password: Password, a: Jti, r: Jti)
    requires Invariant(s) && Sha256(raw) !in s.w.generated && raw != []
    requires ValidateEmail(email).Ok? && EmailTaken(s.w.pg, email) && ValidatePassword(password).Ok?
    ensures var asked := ResetRequestSpec(s.w, email, raw).0;
            var (t, answer) := ResetConfirmSpec(asked.(db := Tick(asked.db, d)), raw, password);
            && answer == (if d < 900 then Done else Failed(BadRequest))
            && (d < 900 && !Locked(t.db, email) ==> LoginSpec(t, email, password, a, r).1.Tokens?)
            && (d >= 900 ==> t.pg.users == s.w.pg.users)
  {
    var u := UserOf(s.w.pg, email).value;
    assert Sha256(raw) !in s.w.pg.resets;
    var asked := ResetRequestSpec(s.w, email, raw).0;
    assert asked.pg == Created(s.w.pg, u, Sha256(raw), s.w.db.now + RESET_TTL);
    var t := ResetConfirmSpec(asked.(db := Tick(asked.db, d)), raw, password).0;
    if d < 900 {
      assert t.pg.users == s.w.pg.users[u := User(email, Argon2id(password))];
      assert HasEmail(t.pg, u, email) && EmailTaken(t.pg, email);
      var v := UserOf(t.pg, email).value;
      assert HasEmail(s.w.pg, v, email) && v == u;
      SettablePasswordsAreUsable(email, password, password);
    }
  }

  /** What a successful confirm does, all of it. */
  lemma ConfirmEffect(s: Logged, raw: Bytes, password: Password)
    requires Invariant(s) && ResetConfirmSpec(s.w, raw, password).1 == Done
    ensures var w, hash := s.w, Sha256(raw);
            var t := ResetConfirmSpec(w, raw, password).0;
            && hash in w.pg.resets && w.pg.resets[hash].usedAt.None? && w.db.now < w.pg.resets[hash].expiresAt
            && var uid := w.pg.resets[hash].uid;
            && t.pg.users.Keys == w.pg.users.Keys && uid in t.pg.users
            && (forall p :: Verify(p, t.pg.users[uid].hash) <==> p == password)
            && t.pg.users[uid].email == w.pg.users[uid].email
            && (forall u :: u in w.pg.users && u != uid ==> t.pg.users[u] == w.pg.users[u])
            && Live(t.db) == (map j | j in Live(w.db) && Live(w.db)[j].uid != uid :: Live(w.db)[j])
            && t.pg.resets == w.pg.resets[hash := w.pg.resets[hash].(usedAt := Some(w.db.now))]
            && t.db.counters == w.db.counters && t.issued == w.issued
  {
    RevokeAllRefines(s.w.db, s.w.pg.resets[Sha256(raw)].uid);
  }

  /** Signed before, and without a live entry in Redis. */
  ghost predicate Dead(w: World, jti: Jti) {
    jti in w.issued && !LiveKey(w.db, jti)
  }

  /** Generated before, and used or gone. */
  ghost predicate Spent(w: World, hash: TokenHash) {
    hash in w.generated && (hash in w.pg.resets ==> w.pg.resets[hash].usedAt.Some?)
  }

  lemma DeadStep(s: Logged, leeway: nat, req: Request, jti: Jti)
    requires Fresh(s, req) && Dead(s.w, jti)
    ensures Dead(Step(s, leeway, req).w, jti)
  {
    match req
    case LoginReq(email, password, a, r) => DeadThroughLogin(s.w, email, password, a, r, jti);
    case RefreshReq(token, a, r) => DeadThroughRefresh(s.w, leeway, token, a, r, jti);
    case _ =>
  }

  lemma DeadThroughLogin(w: World, email: Email, password: Password, a: Jti, r: Jti, jti: Jti)
    requires Dead(w, jti) && a !in w.issued && r !in w.issued
    ensures Dead(LoginSpec(w, email, password, a, r).0, jti)
  {}

  lemma DeadThroughRefresh(w: World, leeway: nat, token: Claims, a: Jti, r: Jti, jti: Jti)
    requires Dead(w, jti) && a !in w.issued && r !in w.issued
    ensures Dead(RefreshSpec(w, leeway, token, a, r).0, jti)
  {}

  lemma SpentStep(s: Logged, leeway: nat, req: Request, hash: TokenHash)
    requires Fresh(s, req) && Spent(s.w, hash)
    ensures Spent(Step(s, leeway, req).w, hash)
  {
    match req
    case LoginReq(email, password, a, r) => LoginKeepsResets(s.w, email, password, a, r);
    case ChangeReq(bearer, current, new_) => ChangeAndDeleteKeepSessions(s.w, leeway, bearer, current, new_);
    case ResetReq(email, raw) => SpentThroughRequest(s.w, email, raw, hash);
    case ConfirmReq(raw, password) => SpentThroughConfirm(s.w, raw, password, hash);
    case _ =>
  }

  lemma LoginKeepsResets(w: World, email: Email, password: Password, a: Jti, r: Jti)
    ensures var t := LoginSpec(w, email, password, a, r).0; t.pg == w.pg && t.generated == w.generated
  {}

  lemma SpentThroughRequest(w: World, email: Email, raw: Bytes, hash: TokenHash)
    requires Spent(w, hash) && Sha256(raw) !in w.generated
    ensures Spent(ResetRequestSpec(w, email, raw).0, hash)
  {}

  lemma SpentThroughConfirm(w: World, raw: Bytes, password: Password, hash: TokenHash)
    requires Spent(w, hash)
    ensures Spent(ResetConfirmSpec(w, raw, password).0, hash)
  {}

  lemma {:induction false} DeadForever(s: Logged, leeway: nat, reqs: seq<Request>, jti: Jti)
    requires FreshRun(s, leeway, reqs) && Dead(s.w, jti)
    ensures Dead(After(s, leeway, reqs).w, jti)
  {
    if reqs != [] {
      FreshInit(s, leeway, reqs);
      DeadForever(s, leeway, reqs[..|reqs| - 1], jti);
      DeadStep(After(s, leeway, reqs[..|reqs| - 1]), leeway, reqs[|reqs| - 1], jti);
    }
  }

  lemma {:induction false} SpentForever(s: Logged, leeway: nat, reqs: seq<Request>, hash: TokenHash)
    requires FreshRun(s, leeway, reqs) && Spent(s.w, hash)
    ensures Spent(After(s, leeway, reqs).w, hash)
  {
    if reqs != [] {
      FreshInit(s, leeway, reqs);
      SpentForever(s, leeway, reqs[..|reqs| - 1], hash);
      SpentStep(After(s, leeway, reqs[..|reqs| - 1]), leeway, reqs[|reqs| - 1], hash);
    }
  }

  /** After a confirm for `uid` and any run that follows it, every refresh token signed
      for `uid` before the confirm is refused, and so is the reset token. */
  lemma ConfirmIsFinal(s: Logged, leeway: nat, raw: Bytes, password: Password, reqs: seq<Request>,
                       token: Claims, a: Jti, r: Jti, other: Password)
    requires Invariant(s) && ResetConfirmSpec(s.w, raw, password).1 == Done
    requires FreshRun(Step(s, leeway, ConfirmReq(raw, password)), leeway, reqs)
    requires Genuine(s.w.issued, token) && token.sub == s.w.pg.resets[Sha256(raw)].uid
    ensures var later := After(Step(s, leeway, ConfirmReq(raw, password)), leeway, reqs).w;
            && RefreshSpec(later, leeway, token, a, r) == (later, Failed(Unauthorized))
            && (raw != [] && ValidatePassword(other).Ok? ==>
                  ResetConfirmSpec(later, raw, other) == (later, Failed(BadRequest)))
  {
    var t := Step(s, leeway, ConfirmReq(raw, password));
    ConfirmEffect(s, raw, password);
    assert token.jti !in Live(t.w.db);
    DeadForever(t, leeway, reqs, token.jti);
    SpentForever(t, leeway, reqs, Sha256(raw));
  }

  /** Changing the password and deleting the account leave sessions and counters as
      they are; tokens signed for a deleted user stay valid until they expire. */
  lemma ChangeAndDeleteKeepSessions(w: World, leeway: nat, bearer: Claims, current: Password, new_: Password)
    ensures var t := ChangeSpec(w, leeway, bearer, current, new_).0; t == w.(pg := t.pg) && t.pg.resets == w.pg.resets
    ensures var t := DeleteSpec(w, leeway, bearer).0; t == w.(pg := t.pg)
  {}
}
