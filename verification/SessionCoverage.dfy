/** When the index knows a live token, exactly. The pipelines of a store and of a
    revoke-all may interleave; what decides is whether a DEL of the index falls after the SADD. */
module SessionCoverage {
  import opened Prelude
  import opened Redis
  import opened SessionStore
  import opened SessionMachine
  import opened SessionInvariants
  import opened SessionSteps
  import opened SessionMoves
  import opened SessionTheorems

  /** The SADD of the store of `jti`. */
  predicate Adds(s: State, step: Step, jti: Jti) {
    step.RunSadd? && At(s, step.op, ToAdd) && s.ops[step.op].jti == jti
  }

  predicate AddsFor(s: State, step: Step, uid: Uid, jti: Jti) {
    Adds(s, step, jti) && s.ops[step.op].sub == uid
  }

  /** The last command of a revoke-all of `uid`. */
  predicate Drops(s: State, step: Step, uid: Uid) {
    step.RunDelIndex? && step.op in s.ops && s.ops[step.op].Deleting? && s.ops[step.op].uid == uid
  }

  // --- How a store proceeds ---

  ghost predicate InStage(ops: Ops, jti: Jti, stage: Stage) {
    exists o :: o in ops && ops[o].Storing? && ops[o].jti == jti && ops[o].stage == stage
  }

  ghost predicate StagesMove(s: State, step: Step, t: State, jti: Jti) {
    && (InStage(t.ops, jti, ToAdd) ==> InStage(s.ops, jti, ToAdd) || Sets(s, step, jti))
    && (InStage(s.ops, jti, ToAdd) ==> InStage(t.ops, jti, ToAdd) || Adds(s, step, jti))
    && (InStage(s.ops, jti, ToExpire) ==>
          InStage(t.ops, jti, ToExpire) || (step.RunExpire? && At(s, step.op, ToExpire) && s.ops[step.op].jti == jti))
    && (jti in t.stored && jti !in s.stored ==> InStage(t.ops, jti, ToAdd))
    && (jti in s.stored ==> jti in t.stored)
  }

  /** A handler outside its pipeline, before and after, changes no stage of any store. */
  lemma AsideStages(ops: Ops, after: Ops, o: OpId, jti: Jti, stage: Stage)
    requires after == ops - {o} || (o in after && !InPipeline(after[o]) && after == ops[o := after[o]])
    requires (o in ops ==> !InPipeline(ops[o])) && stage != ToSet
    ensures InStage(after, jti, stage) <==> InStage(ops, jti, stage)
  {
    if p :| p in ops && ops[p].Storing? && ops[p].jti == jti && ops[p].stage == stage {
      assert p in after && after[p] == ops[p];
    }
    if p :| p in after && after[p].Storing? && after[p].jti == jti && after[p].stage == stage {
      assert p in ops && after[p] == ops[p];
    }
  }

  lemma StoreStages(s: State, step: Step, jti: Jti)
    requires Enabled(s, step) && (step.RunSetEx? || step.RunSadd? || step.RunExpire?)
    ensures StagesMove(s, step, Apply(s, step), jti)
  {
    var t := Apply(s, step);
    forall p | p in s.ops && p != step.op ensures p in t.ops && t.ops[p] == s.ops[p] {}
    if step.RunSetEx? {
      assert t.ops[step.op] == s.ops[step.op].(stage := ToAdd);
    }
  }

  ghost predicate AsideMove(s: State, o: OpId, t: State) {
    && t.stored == s.stored
    && (o in s.ops ==> !InPipeline(s.ops[o]))
    && (t.ops == s.ops - {o} || (o in t.ops && !InPipeline(t.ops[o]) && t.ops == s.ops[o := t.ops[o]]))
  }

  lemma GetDelAside(s: State, o: OpId)
    requires o in s.ops && s.ops[o].Consuming?
    ensures AsideMove(s, o, GetDelStep(s, o))
  {}

  lemma RevokeAside(s: State, o: OpId, order: seq<Jti>)
    ensures o in s.ops && s.ops[o].Listing? ==> AsideMove(s, o, SmembersStep(s, o, order))
    ensures o in s.ops && s.ops[o].Deleting? && s.ops[o].rest != [] ==> AsideMove(s, o, DelKeyStep(s, o))
  {}

  lemma OthersAside(s: State, step: Step)
    requires Enabled(s, step)
    requires !step.Wait? && !step.Register? && !step.DeleteUser?
    requires !step.RunSetEx? && !step.RunSadd? && !step.RunExpire?
    ensures AsideMove(s, step.op, Apply(s, step))
  {
    match step
    case RunGetDel(o) => GetDelAside(s, o);
    case RunSmembers(o, order) => RevokeAside(s, o, order);
    case RunDelKey(o) => RevokeAside(s, o, []);
    case _ =>
  }

  lemma StepMovesStages(s: State, step: Step, jti: Jti)
    requires Enabled(s, step)
    ensures StagesMove(s, step, Apply(s, step), jti)
  {
    if step.RunSetEx? || step.RunSadd? || step.RunExpire? {
      StoreStages(s, step, jti);
    } else if !step.Wait? && !step.Register? && !step.DeleteUser? {
      OthersAside(s, step);
      AsideStages(s.ops, Apply(s, step).ops, step.op, jti, ToAdd);
      AsideStages(s.ops, Apply(s, step).ops, step.op, jti, ToExpire);
    }
  }

  // --- What happens to one member of one index ---

  predicate Member(db: Db, uid: Uid, jti: Jti) {
    uid in db.sessions && jti in db.sessions[uid].members
  }

  /** A live token keeps its place, under the same deadline or a new one that is a full
      time to live away. */
  predicate Stays(db: Db, after: Db, uid: Uid, jti: Jti) {
    jti in Members(db, uid) && LiveKey(after, jti) ==>
      && jti in Members(after, uid)
      && (after.sessions[uid].deadline == db.sessions[uid].deadline
          || after.sessions[uid].deadline == Some(db.now + REFRESH_TTL))
  }

  ghost predicate MembersMove(s: State, step: Step, t: State, uid: Uid, jti: Jti) {
    && (Member(t.db, uid, jti) ==> Member(s.db, uid, jti) || AddsFor(s, step, uid, jti))
    && (!step.Wait? && !Drops(s, step, uid) ==> Stays(s.db, t.db, uid, jti))
  }

  lemma SaddMoves(db: Db, u: Uid, j: Jti, uid: Uid, jti: Jti)
    ensures Stays(db, Sadd(db, u, j), uid, jti)
    ensures Member(Sadd(db, u, j), uid, jti) ==> Member(db, uid, jti) || (u == uid && j == jti)
  {}

  lemma SremMoves(db: Db, u: Uid, j: Jti, uid: Uid, jti: Jti)
    requires j !in db.refresh
    ensures Stays(db, Srem(db, u, j), uid, jti)
    ensures Member(Srem(db, u, j), uid, jti) ==> Member(db, uid, jti)
  {}

  lemma ExpireMoves(db: Db, u: Uid, uid: Uid, jti: Jti)
    ensures Stays(db, ExpireIndex(db, u, REFRESH_TTL), uid, jti)
    ensures Member(ExpireIndex(db, u, REFRESH_TTL), uid, jti) ==> Member(db, uid, jti)
  {}

  lemma DelIndexMoves(db: Db, u: Uid, uid: Uid, jti: Jti)
    ensures u != uid ==> Stays(db, DelIndex(db, u), uid, jti)
    ensures Member(DelIndex(db, u), uid, jti) ==> Member(db, uid, jti) && u != uid
  {}

  lemma HandlersLeaveIndexes(s: State, o: OpId, order: seq<Jti>)
    ensures At(s, o, ToSet) ==> SetExStep(s, o).db.sessions == s.db.sessions
    ensures o in s.ops && s.ops[o].Consuming? ==> GetDelStep(s, o).db.sessions == s.db.sessions
    ensures o in s.ops && s.ops[o].Listing? ==> SmembersStep(s, o, order).db == s.db
    ensures o in s.ops && s.ops[o].Deleting? && s.ops[o].rest != [] ==> DelKeyStep(s, o).db.sessions == s.db.sessions
  {}

  lemma ConsumeLeavesStored(s: State, o: OpId)
    ensures o in s.ops && s.ops[o].Consuming? ==> GetDelStep(s, o).stored == s.stored
    ensures o in s.ops && s.ops[o].Unlisting? ==> SremStep(s, o).stored == s.stored
  {}

  lemma HandlersLeaveStored(s: State, o: OpId, order: seq<Jti>)
    ensures At(s, o, ToAdd) ==> SaddStep(s, o).stored == s.stored
    ensures o in s.ops && s.ops[o].Listing? ==> SmembersStep(s, o, order).stored == s.stored
    ensures o in s.ops && s.ops[o].Deleting? && s.ops[o].rest != [] ==> DelKeyStep(s, o).stored == s.stored
  {}

  lemma StepMovesMembers(s: State, step: Step, uid: Uid, jti: Jti)
    requires Provenance(s) && Enabled(s, step)
    ensures MembersMove(s, step, Apply(s, step), uid, jti)
  {
    var db := s.db;
    match step
    case RunSadd(o) => SaddMoves(db, s.ops[o].sub, s.ops[o].jti, uid, jti);
    case RunExpire(o) => ExpireMoves(db, s.ops[o].sub, uid, jti);
    case RunSrem(o) =>
      assert OpSound(s.issued, s.stored, db.refresh, s.ops[o]);
      SremMoves(db, s.ops[o].owner, s.ops[o].claims.jti, uid, jti);
    case RunDelIndex(o) => DelIndexMoves(db, s.ops[o].uid, uid, jti);
    case RunSetEx(o) => HandlersLeaveIndexes(s, o, []);
    case RunGetDel(o) => HandlersLeaveIndexes(s, o, []);
    case RunSmembers(o, order) => HandlersLeaveIndexes(s, o, order);
    case RunDelKey(o) => HandlersLeaveIndexes(s, o, []);
    case _ =>
  }

  // --- Along a run, after the SADD ---

  /** SADD has run, for this user. */
  ghost predicate Added(s: State, uid: Uid, jti: Jti) {
    jti in s.stored && s.stored[jti].uid == uid && !InStage(s.ops, jti, ToAdd)
  }

  /** If the token is live, the index lists it; once EXPIRE has run, it also outlives it. */
  ghost predicate Listed(s: State, uid: Uid, jti: Jti) {
    LiveKey(s.db, jti) ==>
      && jti in Members(s.db, uid)
      && (InStage(s.ops, jti, ToExpire) || Outlasts(s.db.sessions[uid].deadline, s.db.refresh[jti].expiry))
  }

  /** What else a step does to a token that was stored before. */
  ghost predicate TokenMove(s: State, step: Step, t: State, jti: Jti)
    requires jti in s.stored
  {
    && !Sets(s, step, jti) && !Adds(s, step, jti)
    && jti in t.stored && t.stored[jti] == s.stored[jti]
    && (jti in t.db.refresh ==> jti in s.db.refresh && t.db.refresh[jti] == s.db.refresh[jti])
  }

  lemma StoredMoves(s: State, step: Step)
    requires Enabled(s, step)
    ensures var t := Apply(s, step);
            if !step.RunSetEx? then t.stored == s.stored
            else t.stored == s.stored[s.ops[step.op].jti := Session(s.ops[step.op].sub, s.db.now + REFRESH_TTL)]
  {
    match step
    case RunSadd(o) => HandlersLeaveStored(s, o, []);
    case RunGetDel(o) => ConsumeLeavesStored(s, o);
    case RunSrem(o) => ConsumeLeavesStored(s, o);
    case RunSmembers(o, order) => HandlersLeaveStored(s, o, order);
    case RunDelKey(o) => HandlersLeaveStored(s, o, []);
    case _ =>
  }

  lemma StepMovesToken(s: State, step: Step, uid: Uid, jti: Jti)
    requires Provenance(s) && Enabled(s, step) && Added(s, uid, jti)
    ensures TokenMove(s, step, Apply(s, step), jti)
  {
    StepMovesKeys(s, step);
    StoredMoves(s, step);
    if step.RunSetEx? {
      assert OpSound(s.issued, s.stored, s.db.refresh, s.ops[step.op]);
    }
  }

  lemma AddingLists(s: State, o: OpId)
    requires Invariant(s) && At(s, o, ToAdd)
    ensures Added(SaddStep(s, o), s.ops[o].sub, s.ops[o].jti) && Listed(SaddStep(s, o), s.ops[o].sub, s.ops[o].jti)
  {
    var t := SaddStep(s, o);
    assert OpSound(s.issued, s.stored, s.db.refresh, s.ops[o]);
    assert t.ops[o] == s.ops[o].(stage := ToExpire);
    assert forall p :: p in t.ops && p != o ==> p in s.ops && t.ops[p] == s.ops[p];
    assert s.stored[s.ops[o].jti] == Session(s.ops[o].sub, s.db.now + REFRESH_TTL);
  }

  lemma ListedMoves(s: State, step: Step, t: State, uid: Uid, jti: Jti)
    requires Added(s, uid, jti) && Listed(s, uid, jti) && !Drops(s, step, uid) && !step.Wait?
    requires TokenMove(s, step, t, jti) && StagesMove(s, step, t, jti) && MembersMove(s, step, t, uid, jti)
    requires s.db.now <= t.db.now
    requires jti in s.db.refresh ==> s.db.refresh[jti].expiry <= s.db.now + REFRESH_TTL
    requires step.RunExpire? && At(s, step.op, ToExpire) && s.ops[step.op].jti == jti && LiveKey(t.db, jti) ==>
      t.db.sessions[uid].deadline == Some(s.db.now + REFRESH_TTL)
    ensures Listed(t, uid, jti)
  {}

  /** The clock advances only outside pipelines, where the index outlives the token. */
  lemma ListedThroughWait(s: State, d: nat, uid: Uid, jti: Jti)
    requires Enabled(s, Wait(d)) && Listed(s, uid, jti)
    ensures Listed(Apply(s, Wait(d)), uid, jti)
  {}

  lemma ExpireSetsDeadline(s: State, o: OpId)
    requires Provenance(s) && Enabled(s, RunExpire(o)) && s.ops[o].jti in s.stored
    ensures s.stored[s.ops[o].jti].uid == s.ops[o].sub
    ensures var uid := s.ops[o].sub;
            LiveIndex(s.db, uid) ==>
              ExpireIndex(s.db, uid, REFRESH_TTL).sessions[uid].deadline == Some(s.db.now + REFRESH_TTL)
  {
    assert OpSound(s.issued, s.stored, s.db.refresh, s.ops[o]);
  }

  lemma ListedStep(s: State, step: Step, uid: Uid, jti: Jti)
    requires Invariant(s) && Enabled(s, step) && Added(s, uid, jti) && Listed(s, uid, jti) && !Drops(s, step, uid)
    ensures Listed(Apply(s, step), uid, jti)
  {
    if step.Wait? {
      ListedThroughWait(s, step.d, uid, jti);
    } else {
      StepMovesToken(s, step, uid, jti);
      StepMovesStages(s, step, jti);
      StepMovesMembers(s, step, uid, jti);
      StepMovesKeys(s, step);
      if step.RunExpire? && s.ops[step.op].jti == jti {
        ExpireSetsDeadline(s, step.op);
      }
      ListedMoves(s, step, Apply(s, step), uid, jti);
    }
  }

  lemma AddedStep(s: State, step: Step, uid: Uid, jti: Jti)
    requires Provenance(s) && Enabled(s, step) && Added(s, uid, jti)
    ensures Added(Apply(s, step), uid, jti)
  {
    StepMovesToken(s, step, uid, jti);
    StepMovesStages(s, step, jti);
  }

  lemma DroppedStep(s: State, step: Step, uid: Uid, jti: Jti)
    requires Provenance(s) && Enabled(s, step) && Added(s, uid, jti)
    requires Drops(s, step, uid) || !Member(s.db, uid, jti)
    ensures !Member(Apply(s, step).db, uid, jti)
  {
    StepMovesToken(s, step, uid, jti);
    StepMovesMembers(s, step, uid, jti);
    if step.RunDelIndex? {
      DelIndexMoves(s.db, s.ops[step.op].uid, uid, jti);
    }
  }

  /** The SADD lists the token; only a DEL of the index unlists it while it lives, and
      nothing lists it again. */
  ghost predicate ListingMove(s: State, step: Step, t: State, uid: Uid, jti: Jti) {
    && (AddsFor(s, step, uid, jti) ==> Added(t, uid, jti) && Listed(t, uid, jti))
    && (Added(s, uid, jti) ==> Added(t, uid, jti))
    && (Added(s, uid, jti) && Listed(s, uid, jti) && !Drops(s, step, uid) ==> Listed(t, uid, jti))
    && (Added(s, uid, jti) && (Drops(s, step, uid) || !Member(s.db, uid, jti)) ==> !Member(t.db, uid, jti))
  }

  lemma StepMovesListing(s: State, step: Step, uid: Uid, jti: Jti)
    requires Invariant(s) && Enabled(s, step)
    ensures ListingMove(s, step, Apply(s, step), uid, jti)
  {
    if AddsFor(s, step, uid, jti) {
      AddingLists(s, step.op);
    }
    if Added(s, uid, jti) {
      AddedStep(s, step, uid, jti);
      if Listed(s, uid, jti) && !Drops(s, step, uid) {
        ListedStep(s, step, uid, jti);
      }
      if Drops(s, step, uid) || !Member(s.db, uid, jti) {
        DroppedStep(s, step, uid, jti);
      }
    }
  }

  ghost predicate ListingMovesAlong(states: seq<State>, steps: seq<Step>, uid: Uid, jti: Jti)
    requires |states| == |steps| + 1
  {
    forall m {:trigger steps[m]} :: 0 <= m < |steps| ==> ListingMove(states[m], steps[m], states[m + 1], uid, jti)
  }

  lemma RunMovesListing(states: seq<State>, steps: seq<Step>, uid: Uid, jti: Jti)
    requires IsRun(states, steps) && Init(states[0])
    ensures ListingMovesAlong(states, steps, uid, jti)
  {
    forall m | 0 <= m < |steps| ensures ListingMove(states[m], steps[m], states[m + 1], uid, jti) {
      InvariantAlong(states, steps, m);
      StepMovesListing(states[m], steps[m], uid, jti);
    }
  }

  lemma {:induction false} AddedUntil(states: seq<State>, steps: seq<Step>, uid: Uid, jti: Jti, a: nat, m: nat)
    requires a < m < |states| == |steps| + 1 && ListingMovesAlong(states, steps, uid, jti)
    requires AddsFor(states[a], steps[a], uid, jti)
    ensures Added(states[m], uid, jti)
  {
    assert ListingMove(states[m - 1], steps[m - 1], states[m], uid, jti);
    if m > a + 1 {
      AddedUntil(states, steps, uid, jti, a, m - 1);
    }
  }

  ghost predicate NoDropBetween(states: seq<State>, steps: seq<Step>, uid: Uid, a: nat, k: nat)
    requires k < |states| == |steps| + 1
  {
    forall m :: a < m < k ==> !Drops(states[m], steps[m], uid)
  }

  lemma {:induction false} ListedUntil(states: seq<State>, steps: seq<Step>, uid: Uid, jti: Jti, a: nat, k: nat)
    requires a < k < |states| == |steps| + 1 && ListingMovesAlong(states, steps, uid, jti)
    requires AddsFor(states[a], steps[a], uid, jti)
    requires NoDropBetween(states, steps, uid, a, k)
    ensures Listed(states[k], uid, jti)
  {
    assert ListingMove(states[k - 1], steps[k - 1], states[k], uid, jti);
    if k > a + 1 {
      AddedUntil(states, steps, uid, jti, a, k - 1);
      ListedUntil(states, steps, uid, jti, a, k - 1);
    }
  }

  lemma {:induction false} GoneAfter(states: seq<State>, steps: seq<Step>, uid: Uid, jti: Jti, a: nat, m: nat, k: nat)
    requires a < m < k < |states| == |steps| + 1 && ListingMovesAlong(states, steps, uid, jti)
    requires AddsFor(states[a], steps[a], uid, jti) && Drops(states[m], steps[m], uid)
    ensures !Member(states[k].db, uid, jti)
  {
    assert ListingMove(states[k - 1], steps[k - 1], states[k], uid, jti);
    AddedUntil(states, steps, uid, jti, a, k - 1);
    if k > m + 1 {
      GoneAfter(states, steps, uid, jti, a, m, k - 1);
    }
  }

  /** There is one SADD for a token. */
  lemma AddsOnce(states: seq<State>, steps: seq<Step>, uid: Uid, jti: Jti, a: nat, b: nat)
    requires |states| == |steps| + 1 && a < |steps| && b < |steps| && ListingMovesAlong(states, steps, uid, jti)
    requires AddsFor(states[a], steps[a], uid, jti) && AddsFor(states[b], steps[b], uid, jti)
    ensures a == b
  {
    if a < b {
      AddedUntil(states, steps, uid, jti, a, b);
      assert InStage(states[b].ops, jti, ToAdd);
    } else if b < a {
      AddedUntil(states, steps, uid, jti, b, a);
      assert InStage(states[a].ops, jti, ToAdd);
    }
  }

  /** Every member of an index has had one, for the index's user. */
  lemma {:induction false} MemberWasAdded(states: seq<State>, steps: seq<Step>, k: nat, uid: Uid, jti: Jti)
    requires IsRun(states, steps) && Init(states[0]) && k < |states| && Member(states[k].db, uid, jti)
    ensures exists a :: 0 <= a < k && AddsFor(states[a], steps[a], uid, jti)
  {
    if k > 0 {
      InvariantAlong(states, steps, k - 1);
      StepMovesMembers(states[k - 1], steps[k - 1], uid, jti);
      if !AddsFor(states[k - 1], steps[k - 1], uid, jti) {
        MemberWasAdded(states, steps, k - 1, uid, jti);
      }
    }
  }

  /** Every stored token past its SADD has had one. */
  lemma {:induction false} WasAdded(states: seq<State>, steps: seq<Step>, k: nat, jti: Jti)
    requires IsRun(states, steps) && Init(states[0]) && k < |states|
    requires jti in states[k].stored && !InStage(states[k].ops, jti, ToAdd)
    ensures exists a :: 0 <= a < k && AddsFor(states[a], steps[a], states[k].stored[jti].uid, jti)
  {
    if k > 0 {
      WasAddedStep(states, steps, k - 1, jti);
      if !Adds(states[k - 1], steps[k - 1], jti) {
        WasAdded(states, steps, k - 1, jti);
      }
    }
  }

  lemma WasAddedStep(states: seq<State>, steps: seq<Step>, m: nat, jti: Jti)
    requires IsRun(states, steps) && Init(states[0]) && m < |steps|
    requires jti in states[m + 1].stored && !InStage(states[m + 1].ops, jti, ToAdd)
    ensures jti in states[m].stored && states[m].stored[jti] == states[m + 1].stored[jti]
    ensures InStage(states[m].ops, jti, ToAdd) ==> AddsFor(states[m], steps[m], states[m + 1].stored[jti].uid, jti)
  {
    var s, step := states[m], steps[m];
    InvariantAlong(states, steps, m);
    StepMovesStages(s, step, jti);
    StoredMoves(s, step);
    if step.RunSetEx? || step.RunSadd? {
      assert OpSound(s.issued, s.stored, s.db.refresh, s.ops[step.op]);
    }
  }

  /** A revoke-all of the user deleted the index after the token's SADD. */
  ghost predicate IndexDroppedAfterAdd(states: seq<State>, steps: seq<Step>, k: nat, uid: Uid, jti: Jti)
    requires k < |states| == |steps| + 1
  {
    exists a, m :: 0 <= a < m < k && AddsFor(states[a], steps[a], uid, jti) && Drops(states[m], steps[m], uid)
  }

  /** The store of the token is complete, and the token is live. */
  ghost predicate Settled(s: State, jti: Jti) {
    && LiveKey(s.db, jti) && jti in s.stored && s.stored[jti] == s.db.refresh[jti]
    && !InStage(s.ops, jti, ToAdd) && !InStage(s.ops, jti, ToExpire)
  }

  lemma FinishedIsSettled(s: State, jti: Jti)
    requires Provenance(s) && LiveKey(s.db, jti) && !MidStore(s.ops, jti)
    ensures Settled(s, jti)
  {
    assert forall o :: o in s.ops && InPipeline(s.ops[o]) ==> s.ops[o].jti != jti;
  }

  lemma SettledSince(states: seq<State>, steps: seq<Step>, k: nat, jti: Jti) returns (a: nat)
    requires IsRun(states, steps) && Init(states[0]) && k < |states|
    requires LiveKey(states[k].db, jti) && !MidStore(states[k].ops, jti)
    ensures a < k && Settled(states[k], jti)
    ensures var uid := states[k].db.refresh[jti].uid;
            ListingMovesAlong(states, steps, uid, jti) && AddsFor(states[a], steps[a], uid, jti)
  {
    InvariantAlong(states, steps, k);
    FinishedIsSettled(states[k], jti);
    WasAdded(states, steps, k, jti);
    a :| 0 <= a < k && AddsFor(states[a], steps[a], states[k].stored[jti].uid, jti);
    RunMovesListing(states, steps, states[k].stored[jti].uid, jti);
  }

  lemma SettledIsIndexed(states: seq<State>, steps: seq<Step>, a: nat, k: nat, jti: Jti)
    requires a < k < |states| == |steps| + 1 && Settled(states[k], jti)
    requires var uid := states[k].db.refresh[jti].uid;
             ListingMovesAlong(states, steps, uid, jti) && AddsFor(states[a], steps[a], uid, jti)
    ensures var uid := states[k].db.refresh[jti].uid;
            && (!IndexDroppedAfterAdd(states, steps, k, uid, jti) ==> Indexed(states[k].db, jti))
            && (IndexDroppedAfterAdd(states, steps, k, uid, jti) ==> !Member(states[k].db, uid, jti))
  {
    var uid := states[k].db.refresh[jti].uid;
    if IndexDroppedAfterAdd(states, steps, k, uid, jti) {
      var b, m :| 0 <= b < m < k && AddsFor(states[b], steps[b], uid, jti) && Drops(states[m], steps[m], uid);
      GoneAfter(states, steps, uid, jti, b, m, k);
    } else {
      assert NoDropBetween(states, steps, uid, a, k);
      ListedUntil(states, steps, uid, jti, a, k);
    }
  }

  /** In every interleaving, a live token whose store has finished is in its owner's
      index, and the index expires no earlier than the token, exactly unless a
      revoke-all of the owner deleted the index after the token's SADD. */
  lemma CommandLevelCoverage(states: seq<State>, steps: seq<Step>, k: nat, jti: Jti)
    requires IsRun(states, steps) && Init(states[0]) && k < |states|
    requires LiveKey(states[k].db, jti) && !MidStore(states[k].ops, jti)
    ensures var uid := states[k].db.refresh[jti].uid;
            && (Indexed(states[k].db, jti) <==> !IndexDroppedAfterAdd(states, steps, k, uid, jti))
            && (Indexed(states[k].db, jti) <==> jti in Members(states[k].db, uid))
  {
    var a := SettledSince(states, steps, k, jti);
    SettledIsIndexed(states, steps, a, k, jti);
  }

  lemma DropLeavesOverlapped(s: State, step: Step, uid: Uid, jti: Jti)
    requires RevokesComplete(s.db, s.ops, s.overlapped) && Enabled(s, step)
    requires Drops(s, step, uid) && LiveKey(s.db, jti) && s.db.refresh[jti].uid == uid
    ensures jti in s.overlapped
  {
    assert !Trusted(s.db, s.overlapped, jti);
  }

  /** A live token that a revoke-all is about to leave without an index was stored while
      that revoke-all, or another one of its user, was deleting. */
  lemma DropTakesOverlapped(states: seq<State>, steps: seq<Step>, m: nat, uid: Uid, jti: Jti)
    requires IsRun(states, steps) && Init(states[0]) && m < |steps|
    requires Drops(states[m], steps[m], uid) && LiveKey(states[m].db, jti) && states[m].db.refresh[jti].uid == uid
    ensures exists i :: 0 <= i <= m && Overlapping(states[i], jti)
  {
    InvariantAlong(states, steps, m);
    OverlappedMeans(states, steps, m, jti);
    DropLeavesOverlapped(states[m], steps[m], uid, jti);
  }

  /** So a store that no revoke-all of its user overlapped is never missed. */
  lemma UndisturbedIsCovered(states: seq<State>, steps: seq<Step>, k: nat, jti: Jti)
    requires IsRun(states, steps) && Init(states[0]) && k < |states|
    requires LiveKey(states[k].db, jti) && !MidStore(states[k].ops, jti)
    requires forall i :: 0 <= i <= k ==> !Overlapping(states[i], jti)
    ensures Indexed(states[k].db, jti)
  {
    CommandLevelCoverage(states, steps, k, jti);
    var uid := states[k].db.refresh[jti].uid;
    if IndexDroppedAfterAdd(states, steps, k, uid, jti) {
      var a, m :| 0 <= a < m < k && AddsFor(states[a], steps[a], uid, jti) && Drops(states[m], steps[m], uid);
      LiveSinceAdded(states, steps, uid, jti, a, m, k);
      DropTakesOverlapped(states, steps, m, uid, jti);
    }
  }

  lemma LiveSinceAdded(states: seq<State>, steps: seq<Step>, uid: Uid, jti: Jti, a: nat, m: nat, k: nat)
    requires IsRun(states, steps) && Init(states[0]) && a < m < k < |states|
    requires AddsFor(states[a], steps[a], uid, jti) && LiveKey(states[k].db, jti)
    ensures LiveKey(states[m].db, jti) && states[m].db.refresh[jti].uid == uid
  {
    RunMovesListing(states, steps, uid, jti);
    AddedUntil(states, steps, uid, jti, a, m);
    InvariantAlong(states, steps, m);
    if !LiveKey(states[m].db, jti) {
      DeadStaysDead(states, steps, m, k, jti);
    }
  }
}
