/** Every step of every handler keeps the invariant, so it holds in every reachable state. */
module SessionSteps {
  import opened Prelude
  import opened Redis
  import opened Jwt
  import opened SessionMachine
  import opened SessionInvariants

  /** A handler moves to a point where it is neither storing nor deleting. */
  lemma ActKeeps(s: State, o: OpId, op: Op)
    requires Invariant(s)
    requires (o in s.ops ==> Aside(s.ops[o])) && Aside(op) && !op.Storing?
    requires OpSound(s.issued, s.stored, s.db.refresh, op) && OpInFamily(s.families, s.familyOf, op)
    requires forall f :: Continues(s.familyOf, op, f) ==> o in s.ops && Continues(s.familyOf, s.ops[o], f)
    ensures Invariant(Act(s, o, op))
  {
    ActKeepsOps(s.issued, s.stored, s.db.refresh, s.ops, o, op);
    ActKeepsLinear(s.db.refresh, s.ops, s.familyOf, o, op);
    ActAsideKeepsCovering(s.db, s.ops, s.overlapped, o, op);
  }

  lemma FinishKeeps(s: State, o: OpId)
    requires Invariant(s) && (o in s.ops ==> Aside(s.ops[o]))
    ensures Invariant(Finish(s, o))
  {
    FinishKeepsOthers(s.issued, s.stored, s.db.refresh, s.families, s.familyOf, s.db.now, s.ops, o);
    FinishKeepsLinear(s.db.refresh, s.ops, s.familyOf, o);
    FinishAsideKeepsCovering(s.db, s.ops, s.overlapped, o);
  }

  lemma WaitKeeps(s: State, d: nat)
    requires Invariant(s) && Enabled(s, Wait(d))
    ensures Invariant(Apply(s, Wait(d)))
  {
    TickKeepsCovering(s.db, s.ops, s.overlapped, d);
  }

  lemma UsersKeep(s: State, step: Step)
    requires Invariant(s) && Enabled(s, step) && (step.Register? || step.DeleteUser?)
    ensures Invariant(Apply(s, step))
  {}

  lemma BeginLoginKeeps(s: State, o: OpId, uid: Uid, family: Family)
    requires Invariant(s) && Enabled(s, BeginLogin(o, uid, family))
    ensures Invariant(Apply(s, BeginLogin(o, uid, family)))
  {
    var op := SigningAccess(family, uid, s.users[uid]);
    ActKeepsOps(s.issued, s.stored, s.db.refresh, s.ops, o, op);
    ActKeepsApart(s.ops, o, op);
    ActKeepsOnTime(s.ops, s.stored, s.db.now, o, op);
    NewFamilyUnused(s, family);
    ActKeepsLinear(s.db.refresh, s.ops, s.familyOf, o, op);
    ActAsideKeepsCovering(s.db, s.ops, s.overlapped, o, op);
  }

  lemma NewFamilyUnused(s: State, family: Family)
    requires Provenance(s) && Families(s) && family !in s.families
    ensures forall j :: j in s.db.refresh ==> FamilyOf(s.familyOf, j) != family
    ensures forall p :: p in s.ops ==> !Continues(s.familyOf, s.ops[p], family)
  {}

  lemma SignKeeps(s: State, sub: Uid, email: Email, kind: TokenKind, family: Family, jti: Jti)
    requires Invariant(s) && jti !in s.issued && Carries(s.families, family, sub, email)
    ensures Invariant(Sign(s, sub, email, kind, family, jti))
  {
    var claims := SignWithClaims(s.db.now, sub, email, kind, jti);
    IssueKeepsOps(s.issued, claims, s.stored, s.db.refresh, s.ops);
    forall o | o in s.ops && s.ops[o].Unlisting? ensures s.ops[o].claims.jti != jti {
      assert OpSound(s.issued, s.stored, s.db.refresh, s.ops[o]);
    }
    IssueKeepsLinear(s.db.refresh, s.ops, s.familyOf, jti, family);
    forall o | o in s.ops ensures OpInFamily(s.families, s.familyOf[jti := family], s.ops[o]) {
      assert OpInFamily(s.families, s.familyOf, s.ops[o]);
    }
  }

  lemma SignAccessKeeps(s: State, o: OpId, jti: Jti)
    requires Invariant(s) && Enabled(s, SignAccess(o, jti))
    ensures Invariant(Apply(s, SignAccess(o, jti)))
  {
    var SigningAccess(family, sub, email) := s.ops[o];
    assert OpInFamily(s.families, s.familyOf, s.ops[o]);
    SignKeeps(s, sub, email, Access, family, jti);
    ActKeeps(Sign(s, sub, email, Access, family, jti), o, SigningRefresh(family, sub, email));
  }

  lemma SignRefreshKeeps(s: State, o: OpId, jti: Jti)
    requires Invariant(s) && Enabled(s, SignRefresh(o, jti))
    ensures Invariant(Apply(s, SignRefresh(o, jti)))
  {
    var SigningRefresh(family, sub, email) := s.ops[o];
    assert OpInFamily(s.families, s.familyOf, s.ops[o]);
    SignKeeps(s, sub, email, Refresh, family, jti);
    var t, op := Sign(s, sub, email, Refresh, family, jti), Storing(ToSet, family, sub, jti);
    forall p | p in s.ops && s.ops[p].Storing? ensures s.ops[p].jti != jti {
      assert OpSound(s.issued, s.stored, s.db.refresh, s.ops[p]);
    }
    ActKeepsOps(t.issued, t.stored, t.db.refresh, t.ops, o, op);
    ActKeepsApart(t.ops, o, op);
    ActKeepsFamilies(t.families, t.familyOf, t.ops, o, op);
    ActKeepsOnTime(t.ops, t.stored, t.db.now, o, op);
    ActKeepsLinear(t.db.refresh, t.ops, t.familyOf, o, op);
    ActAsideKeepsCovering(t.db, t.ops, t.overlapped, o, op);
  }

  lemma SetKeepsPipelines(s: State, o: OpId)
    requires Invariant(s) && At(s, o, ToSet)
    ensures var op, session := s.ops[o], Session(s.ops[o].sub, s.db.now + REFRESH_TTL);
            && OnTime(s.ops[o := op.(stage := ToAdd)], s.stored[op.jti := session], s.db.now)
            && op.jti !in s.db.refresh
            && forall p :: p in s.ops && p != o && InPipeline(s.ops[p]) ==> s.ops[p].jti != op.jti
  {}

  lemma SetExFields(s: State, o: OpId)
    requires At(s, o, ToSet)
    ensures var op, t := s.ops[o], SetExStep(s, o);
            var session := Session(op.sub, s.db.now + REFRESH_TTL);
            && t == s.(db := t.db, ops := s.ops[o := op.(stage := ToAdd)], stored := s.stored[op.jti := session],
                       overlapped := t.overlapped)
            && t.db == s.db.(refresh := s.db.refresh[op.jti := session])
  {}

  lemma RunSetExKeepsRecords(s: State, o: OpId)
    requires Invariant(s) && At(s, o, ToSet)
    ensures Provenance(SetExStep(s, o)) && Ledger(SetExStep(s, o))
  {
    var op, session := s.ops[o], Session(s.ops[o].sub, s.db.now + REFRESH_TTL);
    assert OpSound(s.issued, s.stored, s.db.refresh, op);
    SetExFields(s, o);
    SetKeepsRecords(s.issued, s.stored, s.db, s.removed, op.jti, session);
    SetKeepsOps(s.issued, s.stored, s.db.refresh, s.ops, o, session);
    ActKeepsApart(s.ops, o, op.(stage := ToAdd));
  }

  lemma RunSetExKeeps(s: State, o: OpId)
    requires Invariant(s) && At(s, o, ToSet)
    ensures Invariant(SetExStep(s, o))
  {
    var op, session := s.ops[o], Session(s.ops[o].sub, s.db.now + REFRESH_TTL);
    assert OpInFamily(s.families, s.familyOf, op);
    SetExFields(s, o);
    ActKeepsFamilies(s.families, s.familyOf, s.ops, o, op.(stage := ToAdd));
    SetKeepsPipelines(s, o);
    SetKeepsLinear(s.db.refresh, s.ops, s.familyOf, o, session);
    SetExKeepsCovering(s.db, s.ops, s.overlapped, o);
    RunSetExKeepsRecords(s, o);
  }

  lemma RunSaddKeeps(s: State, o: OpId)
    requires Invariant(s) && At(s, o, ToAdd)
    ensures Invariant(SaddStep(s, o))
  {
    var op := s.ops[o];
    assert OpSound(s.issued, s.stored, s.db.refresh, op) && OpInFamily(s.families, s.familyOf, op);
    ActKeepsOps(s.issued, s.stored, s.db.refresh, s.ops, o, op.(stage := ToExpire));
    ActKeepsApart(s.ops, o, op.(stage := ToExpire));
    ActKeepsFamilies(s.families, s.familyOf, s.ops, o, op.(stage := ToExpire));
    ActKeepsOnTime(s.ops, s.stored, s.db.now, o, op.(stage := ToExpire));
    SaddKeepsMembers(s.db, s.stored, op.sub, op.jti);
    ActKeepsLinear(s.db.refresh, s.ops, s.familyOf, o, op.(stage := ToExpire));
    SaddKeepsCovering(s.db, s.ops, s.overlapped, o);
  }

  lemma RunExpireKeeps(s: State, o: OpId)
    requires Invariant(s) && Enabled(s, RunExpire(o))
    ensures Invariant(Apply(s, RunExpire(o)))
  {
    FinishKeepsOthers(s.issued, s.stored, s.db.refresh, s.families, s.familyOf, s.db.now, s.ops, o);
    FinishKeepsLinear(s.db.refresh, s.ops, s.familyOf, o);
    ExpireKeepsMembers(s.db, s.stored, s.ops[o].sub, REFRESH_TTL);
    ExpireKeepsCovering(s.db, s.ops, s.stored, s.overlapped, o);
  }

  lemma BeginConsumeKeeps(s: State, o: OpId, claims: Claims, purpose: Purpose)
    requires Invariant(s) && Enabled(s, BeginConsume(o, claims, purpose))
    ensures Invariant(Apply(s, BeginConsume(o, claims, purpose)))
  {
    ActKeeps(s, o, Consuming(claims, purpose));
  }

  lemma RunGetDelKeeps(s: State, o: OpId)
    requires Invariant(s) && o in s.ops && s.ops[o].Consuming?
    ensures Invariant(GetDelStep(s, o))
  {
    var Consuming(claims, purpose) := s.ops[o];
    if !LiveKey(s.db, claims.jti) {
      FinishKeeps(s, o);
    } else {
      assert OpSound(s.issued, s.stored, s.db.refresh, s.ops[o]);
      var refresh, op := s.db.refresh - {claims.jti}, Unlisting(claims, purpose, s.db.refresh[claims.jti].uid);
      DelKeepsOps(s.issued, s.stored, s.db.refresh, s.ops, claims.jti);
      ActKeepsApart(s.ops, o, op);
      ActKeepsFamilies(s.families, s.familyOf, s.ops, o, op);
      ActKeepsOnTime(s.ops, s.stored, s.db.now, o, op);
      ActKeepsOps(s.issued, s.stored, refresh, s.ops, o, op);
      RemoveKeepsLedger(s.removed, s.stored, s.db.refresh, s.db.now, claims.jti,
                        if purpose == Rotate then ByRefresh else ByLogout);
      DelKeepsLinear(s.db.refresh, s.ops, s.familyOf, claims.jti);
      ActKeepsLinear(refresh, s.ops, s.familyOf, o, op);
      DelKeyKeepsCovering(s.db, s.ops, s.overlapped, claims.jti);
      ActAsideKeepsCovering(DelKey(s.db, claims.jti), s.ops, s.overlapped, o, op);
    }
  }

  lemma SremOnlyKeeps(s: State, uid: Uid, jti: Jti)
    requires Invariant(s) && jti !in s.db.refresh
    ensures Invariant(s.(db := Srem(s.db, uid, jti)))
  {
    var post := Srem(s.db, uid, jti);
    assert post.now == s.db.now && post.refresh == s.db.refresh;
    SremKeepsMembers(s.db, s.stored, uid, jti);
    SremKeepsCovering(s.db, s.ops, s.overlapped, uid, jti);
  }

  lemma RunSremKeeps(s: State, o: OpId)
    requires Invariant(s) && o in s.ops && s.ops[o].Unlisting?
    ensures Invariant(SremStep(s, o))
  {
    var Unlisting(claims, purpose, owner) := s.ops[o];
    assert OpSound(s.issued, s.stored, s.db.refresh, s.ops[o]);
    SremOnlyKeeps(s, owner, claims.jti);
    var t := s.(db := Srem(s.db, owner, claims.jti));
    if purpose == Logout {
      FinishKeeps(t, o);
    } else {
      ActKeeps(t, o, SigningAccess(FamilyOf(s.familyOf, claims.jti), claims.sub, claims.email));
    }
  }

  lemma BeginRevokeAllKeeps(s: State, o: OpId, uid: Uid)
    requires Invariant(s) && Enabled(s, BeginRevokeAll(o, uid))
    ensures Invariant(Apply(s, BeginRevokeAll(o, uid)))
  {
    ActKeeps(s, o, Listing(uid));
  }

  lemma PipelinesOwn(s: State)
    requires Invariant(s)
    ensures forall p, j :: p in s.ops && InPipeline(s.ops[p]) && s.ops[p].jti == j && LiveKey(s.db, j) ==>
              s.db.refresh[j].uid == s.ops[p].sub
  {}

  lemma RunSmembersKeeps(s: State, o: OpId, order: seq<Jti>)
    requires Invariant(s) && Enabled(s, RunSmembers(o, order))
    ensures Invariant(SmembersStep(s, o, order))
  {
    if order == [] {
      FinishKeeps(s, o);
    } else {
      var uid := s.ops[o].uid;
      forall j | j in order ensures j in s.stored && s.stored[j].uid == uid {
        assert j in s.db.sessions[uid].members;
      }
      ActKeepsOps(s.issued, s.stored, s.db.refresh, s.ops, o, Deleting(uid, order));
      ActKeepsApart(s.ops, o, Deleting(uid, order));
      ActKeepsFamilies(s.families, s.familyOf, s.ops, o, Deleting(uid, order));
      ActKeepsOnTime(s.ops, s.stored, s.db.now, o, Deleting(uid, order));
      ActKeepsLinear(s.db.refresh, s.ops, s.familyOf, o, Deleting(uid, order));
      PipelinesOwn(s);
      SmembersKeepsCovering(s.db, s.ops, s.overlapped, o, order);
    }
  }

  lemma RunDelKeyKeeps(s: State, o: OpId)
    requires Invariant(s) && Enabled(s, RunDelKey(o))
    ensures Invariant(DelKeyStep(s, o))
  {
    var Deleting(uid, rest) := s.ops[o];
    var jti, op := rest[0], Deleting(uid, rest[1..]);
    assert OpSound(s.issued, s.stored, s.db.refresh, s.ops[o]);
    DelKeepsOps(s.issued, s.stored, s.db.refresh, s.ops, jti);
    ActKeepsOps(s.issued, s.stored, s.db.refresh - {jti}, s.ops, o, op);
    if LiveKey(s.db, jti) {
      RemoveKeepsLedger(s.removed, s.stored, s.db.refresh, s.db.now, jti, ByRevokeAll);
    }
    ActKeepsApart(s.ops, o, op);
    ActKeepsFamilies(s.families, s.familyOf, s.ops, o, op);
    ActKeepsOnTime(s.ops, s.stored, s.db.now, o, op);
    DelKeepsLinear(s.db.refresh, s.ops, s.familyOf, jti);
    ActKeepsLinear(s.db.refresh - {jti}, s.ops, s.familyOf, o, op);
    DelNextKeepsCovering(s.db, s.ops, s.overlapped, o);
  }

  lemma RunDelIndexKeeps(s: State, o: OpId)
    requires Invariant(s) && Enabled(s, RunDelIndex(o))
    ensures Invariant(Apply(s, RunDelIndex(o)))
  {
    FinishKeepsOthers(s.issued, s.stored, s.db.refresh, s.families, s.familyOf, s.db.now, s.ops, o);
    FinishKeepsLinear(s.db.refresh, s.ops, s.familyOf, o);
    PipelinesOwn(s);
    DelIndexKeepsMembers(s.db, s.stored, s.ops[o].uid);
    DelIndexKeepsCovering(s.db, s.ops, s.overlapped, o);
  }

  predicate StoreStep(step: Step) {
    step.SignAccess? || step.SignRefresh? || step.RunSetEx? || step.RunSadd? || step.RunExpire?
  }

  lemma StoreStepKeeps(s: State, step: Step)
    requires Invariant(s) && Enabled(s, step) && StoreStep(step)
    ensures Invariant(Apply(s, step))
  {
    match step
    case SignAccess(o, jti) => SignAccessKeeps(s, o, jti);
    case SignRefresh(o, jti) => SignRefreshKeeps(s, o, jti);
    case RunSetEx(o) => RunSetExKeeps(s, o);
    case RunSadd(o) => RunSaddKeeps(s, o);
    case RunExpire(o) => RunExpireKeeps(s, o);
  }

  predicate RevokeStep(step: Step) {
    step.RunGetDel? || step.RunSrem? || step.RunSmembers? || step.RunDelKey? || step.RunDelIndex?
  }

  lemma RevokeStepKeeps(s: State, step: Step)
    requires Invariant(s) && Enabled(s, step) && RevokeStep(step)
    ensures Invariant(Apply(s, step))
  {
    match step
    case RunGetDel(o) => RunGetDelKeeps(s, o);
    case RunSrem(o) => RunSremKeeps(s, o);
    case RunSmembers(o, order) => RunSmembersKeeps(s, o, order);
    case RunDelKey(o) => RunDelKeyKeeps(s, o);
    case RunDelIndex(o) => RunDelIndexKeeps(s, o);
  }

  /** Whatever step comes next, from whichever handler, the invariant survives it. */
  lemma InvariantStep(s: State, step: Step)
    requires Invariant(s) && Enabled(s, step)
    ensures Invariant(Apply(s, step))
  {
    if StoreStep(step) {
      StoreStepKeeps(s, step);
    } else if RevokeStep(step) {
      RevokeStepKeeps(s, step);
    } else {
      match step
      case Wait(d) => WaitKeeps(s, d);
      case Register(_, _) => UsersKeep(s, step);
      case DeleteUser(_) => UsersKeep(s, step);
      case BeginLogin(o, uid, family) => BeginLoginKeeps(s, o, uid, family);
      case BeginConsume(o, claims, purpose) => BeginConsumeKeeps(s, o, claims, purpose);
      case BeginRevokeAll(o, uid) => BeginRevokeAllKeeps(s, o, uid);
    }
  }

  lemma {:induction false} InvariantAlong(states: seq<State>, steps: seq<Step>, k: nat)
    requires IsRun(states, steps) && Invariant(states[0]) && k < |states|
    ensures Invariant(states[k])
  {
    if k > 0 {
      InvariantAlong(states, steps, k - 1);
      InvariantStep(states[k - 1], steps[k - 1]);
    }
  }

  /** The invariant holds in every state of every run, whatever the interleaving. */
  lemma ReachableInvariant(s: State)
    requires Reachable(s)
    ensures Invariant(s)
  {
    var states, steps :| IsRun(states, steps) && Init(states[0]) && states[|steps|] == s;
    InvariantAlong(states, steps, |steps|);
  }
}
