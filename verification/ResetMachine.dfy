/** Password reset at the granularity of single SQL statements: requests, confirms,
    registrations and deletions interleave in any order. */
module ResetMachine {
  import opened Prelude
  import opened Repositories

  type OpId = nat

  datatype Op =
    | Finding(email: Email)
    | Inserting(uid: Uid, hash: TokenHash, expiresAt: int)
    | Consuming(hash: TokenHash, password: Password)
    | Updating(uid: Uid, password: Password)
    | Revoking(uid: Uid)

  /** For whom and when a token was made, and a consumption as it was answered. */
  datatype Grant = Grant(uid: Uid, time: int)

  datatype Use = Use(hash: TokenHash, uid: Uid, time: int)

  /** The last three fields record history. */
  datatype State = State(
    now: int, pg: Pg, ops: map<OpId, Op>,
    generated: map<TokenHash, Grant>, created: set<TokenHash>, uses: seq<Use>)

  datatype Step =
    | Wait(d: nat)
    | Register(id: Uid, user: User)
    | ChangePassword(id: Uid, hash: PasswordHash)
    | DeleteUser(id: Uid)
    | BeginRequest(op: OpId, email: Email)
    | FindUser(op: OpId, found: Option<Uid>, raw: Bytes)
    | RunInsert(op: OpId)
    | BeginConfirm(op: OpId, raw: Bytes, password: Password)
    | RunConsume(op: OpId)
    | RunUpdate(op: OpId)
    | FinishRevoke(op: OpId)

  ghost predicate Enabled(s: State, step: Step) {
    match step
    case Wait(_) => true
    case Register(id, _) => id !in s.pg.users
    case ChangePassword(_, _) => true
    case DeleteUser(_) => true
    case BeginRequest(o, _) => o !in s.ops
    case FindUser(o, found, raw) =>
      && o in s.ops && s.ops[o].Finding?
      && (found.Some? ==> HasEmail(s.pg, found.value, s.ops[o].email))
      && (found.None? ==> !EmailTaken(s.pg, s.ops[o].email))
      && Sha256(raw) !in s.generated
    case RunInsert(o) => o in s.ops && s.ops[o].Inserting?
    case BeginConfirm(o, _, _) => o !in s.ops
    case RunConsume(o) => o in s.ops && s.ops[o].Consuming?
    case RunUpdate(o) => o in s.ops && s.ops[o].Updating?
    case FinishRevoke(o) => o in s.ops && s.ops[o].Revoking?
  }

  function Finish(s: State, o: OpId): State {
    s.(ops := s.ops - {o})
  }

  function ConsumeStep(s: State, o: OpId): State
    requires o in s.ops && s.ops[o].Consuming?
  {
    var Consuming(hash, password) := s.ops[o];
    if !Consumable(s.pg, hash, s.now) then Finish(s, o)
    else
      var uid := s.pg.resets[hash].uid;
      s.(pg := Consumed(s.pg, hash, s.now), ops := s.ops[o := Updating(uid, password)],
         uses := s.uses + [Use(hash, uid, s.now)])
  }

  function InsertStep(s: State, o: OpId): State
    requires o in s.ops && s.ops[o].Inserting?
  {
    var Inserting(uid, hash, expiresAt) := s.ops[o];
    if CreateError(s.pg, uid, hash).Some? then Finish(s, o)
    else Finish(s, o).(pg := Created(s.pg, uid, hash, expiresAt), created := s.created + {hash})
  }

  ghost function Apply(s: State, step: Step): State
    requires Enabled(s, step)
  {
    match step
    case Wait(d) => s.(now := s.now + d)
    case Register(id, user) => s.(pg := Inserted(s.pg, id, user))
    case ChangePassword(id, hash) => s.(pg := WithPassword(s.pg, id, hash))
    case DeleteUser(id) => s.(pg := Deleted(s.pg, id))
    case BeginRequest(o, email) => s.(ops := s.ops[o := Finding(email)])
    case FindUser(o, found, raw) =>
      if found.None? then Finish(s, o)
      else s.(ops := s.ops[o := Inserting(found.value, Sha256(raw), s.now + RESET_TTL)],
              generated := s.generated[Sha256(raw) := Grant(found.value, s.now)])
    case RunInsert(o) => InsertStep(s, o)
    case BeginConfirm(o, raw, password) => s.(ops := s.ops[o := Consuming(Sha256(raw), password)])
    case RunConsume(o) => ConsumeStep(s, o)
    case RunUpdate(o) =>
      var Updating(uid, password) := s.ops[o];
      if uid !in s.pg.users then Finish(s, o)
      else s.(pg := WithPassword(s.pg, uid, Argon2id(password)), ops := s.ops[o := Revoking(uid)])
    case FinishRevoke(o) => Finish(s, o)
  }

  ghost predicate Init(s: State) {
    s.pg == Pg(map[], map[]) && s.ops == map[] && s.generated == map[] && s.created == {} && s.uses == []
  }

  ghost predicate IsRun(states: seq<State>, steps: seq<Step>) {
    && |states| == |steps| + 1
    && forall i :: 0 <= i < |steps| ==> Enabled(states[i], steps[i]) && states[i + 1] == Apply(states[i], steps[i])
  }

  // --- What every statement keeps ---

  predicate AsGenerated(generated: map<TokenHash, Grant>, hash: TokenHash, uid: Uid, expiresAt: int) {
    hash in generated && uid == generated[hash].uid && expiresAt == generated[hash].time + 900
  }

  ghost predicate TokensFresh(ops: map<OpId, Op>, generated: map<TokenHash, Grant>, created: set<TokenHash>) {
    && created <= generated.Keys
    && (forall o :: o in ops && ops[o].Inserting? ==>
          AsGenerated(generated, ops[o].hash, ops[o].uid, ops[o].expiresAt) && ops[o].hash !in created)
    && (forall o, p :: o in ops && p in ops && o != p && ops[o].Inserting? && ops[p].Inserting? ==>
          ops[o].hash != ops[p].hash)
  }

  ghost predicate RowsAsGenerated(pg: Pg, generated: map<TokenHash, Grant>, created: set<TokenHash>, now: int) {
    && (forall h :: h in pg.resets ==>
          h in created && AsGenerated(generated, h, pg.resets[h].uid, pg.resets[h].expiresAt))
    && (forall h :: h in generated ==> generated[h].time <= now)
  }

  /** Each use is of a created token, by the user it was made for, within 900 seconds
      of its making; and there is at most one of each. */
  ghost predicate UsesSound(generated: map<TokenHash, Grant>, created: set<TokenHash>, uses: seq<Use>) {
    && (forall i :: 0 <= i < |uses| ==>
          && uses[i].hash in created && uses[i].hash in generated
          && generated[uses[i].hash].uid == uses[i].uid
          && generated[uses[i].hash].time <= uses[i].time < generated[uses[i].hash].time + 900)
    && (forall i, k :: 0 <= i < k < |uses| ==> uses[i].hash != uses[k].hash)
  }

  /** `used_at` is set exactly on the rows that were consumed, to the time it happened. */
  ghost predicate UsedMeansConsumed(pg: Pg, uses: seq<Use>) {
    && (forall i :: 0 <= i < |uses| && uses[i].hash in pg.resets ==>
          pg.resets[uses[i].hash].usedAt == Some(uses[i].time))
    && (forall h :: h in pg.resets && pg.resets[h].usedAt.Some? ==> exists i :: 0 <= i < |uses| && uses[i].hash == h)
  }

  ghost predicate Invariant(s: State) {
    && UniqueEmails(s.pg) && ForeignKeys(s.pg)
    && TokensFresh(s.ops, s.generated, s.created)
    && RowsAsGenerated(s.pg, s.generated, s.created, s.now)
    && UsesSound(s.generated, s.created, s.uses)
    && UsedMeansConsumed(s.pg, s.uses)
  }

  lemma ConsumeKeeps(s: State, o: OpId)
    requires Invariant(s) && o in s.ops && s.ops[o].Consuming?
    ensures Invariant(ConsumeStep(s, o))
  {
    var Consuming(hash, _) := s.ops[o];
    StatementsKeepConstraints(s.pg, 0, User([], Argon2id([])), Argon2id([]), hash, s.now);
    if Consumable(s.pg, hash, s.now) {
      var t := ConsumeStep(s, o);
      assert t.uses[|s.uses|] == Use(hash, s.pg.resets[hash].uid, s.now);
      forall h | h in t.pg.resets && t.pg.resets[h].usedAt.Some?
        ensures exists i :: 0 <= i < |t.uses| && t.uses[i].hash == h
      {
        if h != hash {
          var i :| 0 <= i < |s.uses| && s.uses[i].hash == h;
          assert t.uses[i].hash == h;
        }
      }
    }
  }

  lemma InsertKeeps(s: State, o: OpId)
    requires Invariant(s) && o in s.ops && s.ops[o].Inserting?
    ensures Invariant(InsertStep(s, o))
  {
    var Inserting(uid, hash, expiresAt) := s.ops[o];
    StatementsKeepConstraints(s.pg, uid, User([], Argon2id([])), Argon2id([]), hash, expiresAt);
  }

  lemma TablesKeep(s: State, pg: Pg)
    requires Invariant(s) && UniqueEmails(pg) && ForeignKeys(pg)
    requires forall h :: h in pg.resets ==> h in s.pg.resets && pg.resets[h] == s.pg.resets[h]
    ensures Invariant(s.(pg := pg))
  {}

  lemma InvariantStep(s: State, step: Step)
    requires Invariant(s) && Enabled(s, step)
    ensures Invariant(Apply(s, step))
  {
    var nobody, nothing := User([], Argon2id([])), Sha256([]);
    match step
    case Register(id, user) =>
      StatementsKeepConstraints(s.pg, id, user, user.hash, nothing, 0);
      TablesKeep(s, Inserted(s.pg, id, user));
    case ChangePassword(id, hash) =>
      StatementsKeepConstraints(s.pg, id, nobody, hash, nothing, 0);
      TablesKeep(s, WithPassword(s.pg, id, hash));
    case DeleteUser(id) =>
      StatementsKeepConstraints(s.pg, id, nobody, nobody.hash, nothing, 0);
      TablesKeep(s, Deleted(s.pg, id));
    case RunInsert(o) => InsertKeeps(s, o);
    case RunConsume(o) => ConsumeKeeps(s, o);
    case RunUpdate(o) =>
      StatementsKeepConstraints(s.pg, s.ops[o].uid, nobody, Argon2id(s.ops[o].password), nothing, 0);
      TablesKeep(s, WithPassword(s.pg, s.ops[o].uid, Argon2id(s.ops[o].password)));
    case _ =>
  }

  lemma {:induction false} InvariantAlong(states: seq<State>, steps: seq<Step>, i: nat)
    requires IsRun(states, steps) && Init(states[0]) && i < |states|
    ensures Invariant(states[i])
  {
    if i > 0 {
      InvariantAlong(states, steps, i - 1);
      InvariantStep(states[i - 1], steps[i - 1]);
    }
  }

  // --- Over whole runs ---

  /** Each token is consumed at most once, within 900 seconds, for the user it was made
      for; and no row refers to a missing user. */
  lemma ResetTokensSound(states: seq<State>, steps: seq<Step>, i: nat)
    requires IsRun(states, steps) && Init(states[0]) && i < |states|
    ensures var s := states[i];
            && UsesSound(s.generated, s.created, s.uses)
            && (forall h :: h in s.pg.resets ==> s.pg.resets[h].uid in s.pg.users)
  {
    InvariantAlong(states, steps, i);
  }

  /** The row is gone, or it still says it was used at `w`. */
  ghost predicate UsedAtOrGone(s: State, hash: TokenHash, w: int) {
    hash in s.created && (hash in s.pg.resets ==> s.pg.resets[hash].usedAt == Some(w))
  }

  lemma UsedAtStep(s: State, step: Step, hash: TokenHash, w: int)
    requires Invariant(s) && Enabled(s, step) && UsedAtOrGone(s, hash, w)
    ensures UsedAtOrGone(Apply(s, step), hash, w)
    ensures step.RunConsume? && s.ops[step.op].hash == hash ==> !Consumable(s.pg, hash, s.now)
  {}

  lemma {:induction false} UsedAtStays(states: seq<State>, steps: seq<Step>, i: nat, k: nat, hash: TokenHash, w: int)
    requires IsRun(states, steps) && Init(states[0]) && i <= k < |states|
    requires UsedAtOrGone(states[i], hash, w)
    ensures UsedAtOrGone(states[k], hash, w)
  {
    if i < k {
      UsedAtStays(states, steps, i, k - 1, hash, w);
      InvariantAlong(states, steps, k - 1);
      UsedAtStep(states[k - 1], steps[k - 1], hash, w);
    }
  }

  /** `used_at`, once set, never changes, and the token is never consumed again. */
  lemma UsedAtIsFinal(states: seq<State>, steps: seq<Step>, i: nat, k: nat, hash: TokenHash, w: int)
    requires IsRun(states, steps) && Init(states[0]) && i <= k < |states|
    requires hash in states[i].pg.resets && states[i].pg.resets[hash].usedAt == Some(w)
    ensures UsedAtOrGone(states[k], hash, w) && !Consumable(states[k].pg, hash, states[k].now)
  {
    InvariantAlong(states, steps, i);
    UsedAtStays(states, steps, i, k, hash, w);
  }
}
