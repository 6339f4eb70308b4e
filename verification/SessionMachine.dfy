/** The session handlers at the granularity of single Redis commands. Any number of
    logins, refreshes, logouts and revoke-alls are in flight, each with a program
    counter, and any of them may take the next step. */
module SessionMachine {
  import opened Prelude
  import opened Redis
  import opened Jwt

  type OpId = nat

  /** A password login starts a family; each refresh continues one. */
  type Family = nat

  datatype Login = Login(uid: Uid, email: Email)

  datatype Purpose = Rotate | Logout

  datatype Stage = ToSet | ToAdd | ToExpire

  /** Where a handler is. The name says what it does next. */
  datatype Op =
    | SigningAccess(family: Family, sub: Uid, email: Email)
    | SigningRefresh(family: Family, sub: Uid, email: Email)
    | Storing(stage: Stage, family: Family, sub: Uid, jti: Jti)
    | Consuming(claims: Claims, purpose: Purpose)
    | Unlisting(claims: Claims, purpose: Purpose, owner: Uid)
    | Listing(uid: Uid)
    | Deleting(uid: Uid, rest: seq<Jti>)

  type Ops = map<OpId, Op>

  datatype How = ByRefresh | ByLogout | ByRevokeAll

  datatype Removal = Removal(jti: Jti, how: How)

  /** The fields after `ops` record history; no handler reads `stored`, `removed`,
      `overlapped` or the families. */
  datatype State = State(
    db: Db,
    leeway: nat,
    users: map<Uid, Email>,
    everUsers: set<Uid>,
    ops: Ops,
    issued: Issued,
    families: map<Family, Login>,
    familyOf: map<Jti, Family>,
    stored: map<Jti, Session>,
    removed: seq<Removal>,
    overlapped: set<Jti>)

  datatype Step =
    | Wait(d: nat)
    | Register(uid: Uid, email: Email)
    | DeleteUser(uid: Uid)
    | BeginLogin(op: OpId, uid: Uid, family: Family)
    | SignAccess(op: OpId, jti: Jti)
    | SignRefresh(op: OpId, jti: Jti)
    | RunSetEx(op: OpId)
    | RunSadd(op: OpId)
    | RunExpire(op: OpId)
    | BeginConsume(op: OpId, claims: Claims, purpose: Purpose)
    | RunGetDel(op: OpId)
    | RunSrem(op: OpId)
    | BeginRevokeAll(op: OpId, uid: Uid)
    | RunSmembers(op: OpId, order: seq<Jti>)
    | RunDelKey(op: OpId)
    | RunDelIndex(op: OpId)

  ghost predicate Init(s: State) {
    s.db.refresh == map[] && s.db.sessions == map[] && s.users == map[] && s.everUsers == {} && s.ops == map[] &&
    s.issued == map[] && s.families == map[] && s.familyOf == map[] && s.stored == map[] && s.removed == [] &&
    s.overlapped == {}
  }

  /** SET has run and EXPIRE has not. */
  predicate InPipeline(op: Op) {
    op.Storing? && op.stage != ToSet
  }

  predicate At(s: State, o: OpId, stage: Stage) {
    o in s.ops && s.ops[o].Storing? && s.ops[o].stage == stage
  }

  function FamilyOf(familyOf: map<Jti, Family>, jti: Jti): Family {
    if jti in familyOf then familyOf[jti] else 0
  }

  ghost predicate Enabled(s: State, step: Step) {
    match step
    // the clock does not advance inside one store's pipeline
    case Wait(d) => forall o :: o in s.ops ==> !InPipeline(s.ops[o])
    case Register(uid, email) => uid !in s.everUsers && email !in s.users.Values
    case DeleteUser(uid) => true
    // the row was read and the password verified
    case BeginLogin(o, uid, family) => o !in s.ops && uid in s.users && family !in s.families
    case SignAccess(o, jti) => o in s.ops && s.ops[o].SigningAccess? && jti !in s.issued
    case SignRefresh(o, jti) => o in s.ops && s.ops[o].SigningRefresh? && jti !in s.issued
    case RunSetEx(o) => At(s, o, ToSet)
    case RunSadd(o) => At(s, o, ToAdd)
    case RunExpire(o) => At(s, o, ToExpire)
    case BeginConsume(o, claims, purpose) =>
      o !in s.ops && DecodeAndCheck(s.issued, claims, Refresh, s.db.now, s.leeway).Ok?
    case RunGetDel(o) => o in s.ops && s.ops[o].Consuming?
    case RunSrem(o) => o in s.ops && s.ops[o].Unlisting?
    case BeginRevokeAll(o, uid) => o !in s.ops
    case RunSmembers(o, order) =>
      o in s.ops && s.ops[o].Listing? && forall j :: j in order <==> j in Members(s.db, s.ops[o].uid)
    case RunDelKey(o) => o in s.ops && s.ops[o].Deleting? && s.ops[o].rest != []
    case RunDelIndex(o) => o in s.ops && s.ops[o].Deleting? && s.ops[o].rest == []
  }

  ghost predicate RevokeRunning(ops: Ops, uid: Uid) {
    exists r :: r in ops && ops[r].Deleting? && ops[r].uid == uid
  }

  function InPipelineOf(ops: Ops, uid: Uid): set<Jti> {
    set o | o in ops && InPipeline(ops[o]) && ops[o].sub == uid :: ops[o].jti
  }

  function Act(s: State, o: OpId, op: Op): State {
    s.(ops := s.ops[o := op])
  }

  function Finish(s: State, o: OpId): State {
    s.(ops := s.ops - {o})
  }

  function Sign(s: State, sub: Uid, email: Email, kind: TokenKind, family: Family, jti: Jti): State {
    s.(issued := s.issued[jti := SignWithClaims(s.db.now, sub, email, kind, jti)],
       familyOf := s.familyOf[jti := family])
  }

  ghost function SetExStep(s: State, o: OpId): State
    requires At(s, o, ToSet)
  {
    var op := s.ops[o];
    Act(s, o, op.(stage := ToAdd)).(
      db := SetEx(s.db, op.jti, op.sub, REFRESH_TTL),
      stored := s.stored[op.jti := Session(op.sub, s.db.now + REFRESH_TTL)],
      overlapped := if RevokeRunning(s.ops, op.sub) then s.overlapped + {op.jti} else s.overlapped)
  }

  function SaddStep(s: State, o: OpId): State
    requires At(s, o, ToAdd)
  {
    var op := s.ops[o];
    Act(s, o, op.(stage := ToExpire)).(db := Sadd(s.db, op.sub, op.jti))
  }

  function GetDelStep(s: State, o: OpId): State
    requires o in s.ops && s.ops[o].Consuming?
  {
    var Consuming(claims, purpose) := s.ops[o];
    if !LiveKey(s.db, claims.jti) then Finish(s, o)
    else
      var how := if purpose == Rotate then ByRefresh else ByLogout;
      Act(s, o, Unlisting(claims, purpose, s.db.refresh[claims.jti].uid)).(
        db := DelKey(s.db, claims.jti),
        removed := s.removed + [Removal(claims.jti, how)])
  }

  function SremStep(s: State, o: OpId): State
    requires o in s.ops && s.ops[o].Unlisting?
  {
    var Unlisting(claims, purpose, owner) := s.ops[o];
    var next := if purpose == Logout then Finish(s, o)
                else Act(s, o, SigningAccess(FamilyOf(s.familyOf, claims.jti), claims.sub, claims.email));
    next.(db := Srem(s.db, owner, claims.jti))
  }

  function SmembersStep(s: State, o: OpId, order: seq<Jti>): State
    requires o in s.ops && s.ops[o].Listing?
  {
    var uid := s.ops[o].uid;
    if order == [] then Finish(s, o)
    else Act(s, o, Deleting(uid, order)).(overlapped := s.overlapped + InPipelineOf(s.ops, uid))
  }

  function DelKeyStep(s: State, o: OpId): State
    requires o in s.ops && s.ops[o].Deleting? && s.ops[o].rest != []
  {
    var Deleting(uid, rest) := s.ops[o];
    Act(s, o, Deleting(uid, rest[1..])).(
      db := DelKey(s.db, rest[0]),
      removed := if LiveKey(s.db, rest[0]) then s.removed + [Removal(rest[0], ByRevokeAll)] else s.removed)
  }

  ghost function Apply(s: State, step: Step): State
    requires Enabled(s, step)
  {
    match step
    case Wait(d) => s.(db := Tick(s.db, d))
    case Register(uid, email) => s.(users := s.users[uid := email], everUsers := s.everUsers + {uid})
    case DeleteUser(uid) => s.(users := s.users - {uid})
    case BeginLogin(o, uid, family) =>
      Act(s, o, SigningAccess(family, uid, s.users[uid])).(families := s.families[family := Login(uid, s.users[uid])])
    case SignAccess(o, jti) =>
      var SigningAccess(family, sub, email) := s.ops[o];
      Act(Sign(s, sub, email, Access, family, jti), o, SigningRefresh(family, sub, email))
    case SignRefresh(o, jti) =>
      var SigningRefresh(family, sub, email) := s.ops[o];
      Act(Sign(s, sub, email, Refresh, family, jti), o, Storing(ToSet, family, sub, jti))
    case RunSetEx(o) => SetExStep(s, o)
    case RunSadd(o) => SaddStep(s, o)
    case RunExpire(o) => Finish(s, o).(db := ExpireIndex(s.db, s.ops[o].sub, REFRESH_TTL))
    case BeginConsume(o, claims, purpose) => Act(s, o, Consuming(claims, purpose))
    case RunGetDel(o) => GetDelStep(s, o)
    case RunSrem(o) => SremStep(s, o)
    case BeginRevokeAll(o, uid) => Act(s, o, Listing(uid))
    case RunSmembers(o, order) => SmembersStep(s, o, order)
    case RunDelKey(o) => DelKeyStep(s, o)
    case RunDelIndex(o) => Finish(s, o).(db := DelIndex(s.db, s.ops[o].uid))
  }

  /** A run: `states[i + 1]` follows from `states[i]` by `steps[i]`. */
  ghost predicate IsRun(states: seq<State>, steps: seq<Step>) {
    && |states| == |steps| + 1
    && forall i :: 0 <= i < |steps| ==> Enabled(states[i], steps[i]) && states[i + 1] == Apply(states[i], steps[i])
  }

  ghost predicate Reachable(s: State) {
    exists states, steps :: IsRun(states, steps) && Init(states[0]) && states[|steps|] == s
  }
}
