/** What a step can change at all, in brief, so that the theorems about whole runs
    need not look into every handler again. */
module SessionMoves {
  import opened Prelude
  import opened Redis
  import opened SessionMachine

  /** A store of `jti` and a revoke-all of its user are both between their first and last command. */
  ghost predicate Overlapping(s: State, jti: Jti) {
    exists o, r :: o in s.ops && r in s.ops && InPipeline(s.ops[o]) && s.ops[o].jti == jti &&
      s.ops[r].Deleting? && s.ops[r].uid == s.ops[o].sub
  }

  /** A login or refresh of the user that has passed its check and may still sign or store. */
  predicate InFlightFor(op: Op, uid: Uid) {
    match op
    case SigningAccess(_, sub, _) => sub == uid
    case SigningRefresh(_, sub, _) => sub == uid
    case Storing(_, _, sub, _) => sub == uid
    case Unlisting(claims, purpose, _) => purpose == Rotate && claims.sub == uid
    case _ => false
  }

  ghost predicate Quiet(ops: Ops, uid: Uid) {
    forall o :: o in ops ==> !InFlightFor(ops[o], uid)
  }

  /** The token that a SET EX stores. */
  predicate Sets(s: State, step: Step, jti: Jti) {
    step.RunSetEx? && At(s, step.op, ToSet) && jti == s.ops[step.op].jti
  }

  ghost predicate KeysMove(s: State, step: Step, t: State) {
    && s.db.now <= t.db.now
    && s.stored.Keys <= t.stored.Keys
    && (forall j :: j in t.db.refresh ==>
          || (j in s.db.refresh && t.db.refresh[j] == s.db.refresh[j])
          || (Sets(s, step, j) && t.db.refresh[j].uid == s.ops[step.op].sub))
  }

  ghost predicate OverlapsMove(s: State, step: Step, t: State) {
    && s.overlapped <= t.overlapped
    && (forall j :: j in t.overlapped ==>
          || j in s.overlapped
          || (Sets(s, step, j) && Overlapping(t, j))
          || (step.RunSmembers? && step.op in s.ops && s.ops[step.op].Listing?
              && j in InPipelineOf(s.ops, s.ops[step.op].uid) && Overlapping(t, j)))
  }

  /** Who can newly be in flight for a user. */
  ghost predicate FlightsMove(s: State, step: Step, t: State) {
    forall o, u :: o in t.ops && InFlightFor(t.ops[o], u) ==>
      || (o in s.ops && InFlightFor(s.ops[o], u))
      || (step.BeginLogin? && step.uid == u)
      || (step.RunGetDel? && o == step.op && o in s.ops && s.ops[o].Consuming? && s.ops[o].claims.sub == u
          && LiveKey(s.db, s.ops[o].claims.jti))
  }

  ghost predicate SignaturesMove(s: State, step: Step, t: State) {
    forall j :: j in t.issued ==>
      || (j in s.issued && t.issued[j] == s.issued[j])
      || ((step.SignAccess? || step.SignRefresh?) && step.op in s.ops && InFlightFor(s.ops[step.op], t.issued[j].sub))
  }

  /** How a revoke-all proceeds from SMEMBERS to its end. */
  ghost predicate RevokesMove(s: State, step: Step, t: State) {
    && (step.RunSmembers? ==>
          && step.op in s.ops && s.ops[step.op].Listing?
          && (forall j :: j in Members(s.db, s.ops[step.op].uid) ==> j in step.order)
          && (step.op in t.ops ==> t.ops[step.op] == Deleting(s.ops[step.op].uid, step.order))
          && (step.op !in t.ops ==> Members(s.db, s.ops[step.op].uid) == {}))
    && (forall r :: r in s.ops && s.ops[r].Deleting? ==>
          && (r in t.ops ==>
                && t.ops[r].Deleting? && t.ops[r].uid == s.ops[r].uid
                && forall j :: j in s.ops[r].rest ==> j in t.ops[r].rest || j !in t.db.refresh)
          && (r !in t.ops ==> s.ops[r].rest == [] && step.RunDelIndex?))
  }

  lemma GetDelMoves(s: State, o: OpId)
    requires o in s.ops && s.ops[o].Consuming?
    ensures KeysMove(s, RunGetDel(o), GetDelStep(s, o)) && FlightsMove(s, RunGetDel(o), GetDelStep(s, o))
  {}

  lemma SremMoves(s: State, o: OpId)
    requires o in s.ops && s.ops[o].Unlisting?
    ensures KeysMove(s, RunSrem(o), SremStep(s, o)) && FlightsMove(s, RunSrem(o), SremStep(s, o))
  {}

  lemma DelKeyMoves(s: State, o: OpId)
    requires o in s.ops && s.ops[o].Deleting? && s.ops[o].rest != []
    ensures KeysMove(s, RunDelKey(o), DelKeyStep(s, o)) && FlightsMove(s, RunDelKey(o), DelKeyStep(s, o))
    ensures RevokesMove(s, RunDelKey(o), DelKeyStep(s, o))
  {}

  lemma StoreMoves(s: State, o: OpId)
    ensures At(s, o, ToSet) ==>
              KeysMove(s, RunSetEx(o), SetExStep(s, o)) && FlightsMove(s, RunSetEx(o), SetExStep(s, o))
    ensures At(s, o, ToAdd) ==>
              KeysMove(s, RunSadd(o), SaddStep(s, o)) && FlightsMove(s, RunSadd(o), SaddStep(s, o))
  {}

  lemma SmembersMoves(s: State, o: OpId, order: seq<Jti>)
    requires Enabled(s, RunSmembers(o, order))
    ensures var step, t := RunSmembers(o, order), SmembersStep(s, o, order);
            KeysMove(s, step, t) && FlightsMove(s, step, t)
  {}

  lemma SmembersRevokes(s: State, o: OpId, order: seq<Jti>)
    requires Enabled(s, RunSmembers(o, order))
    ensures RevokesMove(s, RunSmembers(o, order), SmembersStep(s, o, order))
  {}

  lemma FinishMoves(s: State, o: OpId, step: Step)
    requires (step.RunExpire? && At(s, o, ToExpire))
      || (step.RunDelIndex? && o in s.ops && s.ops[o].Deleting? && s.ops[o].rest == [])
    ensures RevokesMove(s, step, Finish(s, o))
  {}

  /** Steps that leave every revoke-all where it is. */
  lemma OthersMove(s: State, o: OpId, op: Op, step: Step)
    requires !step.RunSmembers? && (o in s.ops ==> !s.ops[o].Deleting?)
    ensures RevokesMove(s, step, Act(s, o, op)) && RevokesMove(s, step, Finish(s, o))
  {}

  lemma StepMovesKeys(s: State, step: Step)
    requires Enabled(s, step)
    ensures KeysMove(s, step, Apply(s, step))
  {
    match step
    case RunGetDel(o) => GetDelMoves(s, o);
    case RunSrem(o) => SremMoves(s, o);
    case RunDelKey(o) => DelKeyMoves(s, o);
    case RunSetEx(o) => StoreMoves(s, o);
    case RunSadd(o) => StoreMoves(s, o);
    case RunSmembers(o, order) => SmembersMoves(s, o, order);
    case _ =>
  }

  lemma SetExOverlaps(s: State, o: OpId)
    requires At(s, o, ToSet)
    ensures OverlapsMove(s, RunSetEx(o), SetExStep(s, o))
  {
    var t, op := SetExStep(s, o), s.ops[o];
    if RevokeRunning(s.ops, op.sub) {
      var r :| r in s.ops && s.ops[r].Deleting? && s.ops[r].uid == op.sub;
      assert t.ops[o] == op.(stage := ToAdd) && t.ops[r] == s.ops[r];
      assert Overlapping(t, op.jti);
    }
  }

  lemma SmembersOverlaps(s: State, o: OpId, order: seq<Jti>)
    requires o in s.ops && s.ops[o].Listing?
    ensures OverlapsMove(s, RunSmembers(o, order), SmembersStep(s, o, order))
  {
    var t, uid := SmembersStep(s, o, order), s.ops[o].uid;
    if order != [] {
      forall j | j in InPipelineOf(s.ops, uid) ensures Overlapping(t, j) {
        var p :| p in s.ops && InPipeline(s.ops[p]) && s.ops[p].sub == uid && s.ops[p].jti == j;
        assert t.ops[p] == s.ops[p] && t.ops[o] == Deleting(uid, order);
      }
    }
  }

  lemma StepMovesOverlaps(s: State, step: Step)
    requires Enabled(s, step)
    ensures OverlapsMove(s, step, Apply(s, step))
  {
    match step
    case RunSetEx(o) => SetExOverlaps(s, o);
    case RunSmembers(o, order) => SmembersOverlaps(s, o, order);
    case _ =>
  }

  lemma StepMovesFlights(s: State, step: Step)
    requires Enabled(s, step)
    ensures FlightsMove(s, step, Apply(s, step))
  {
    match step
    case RunGetDel(o) => GetDelMoves(s, o);
    case RunSrem(o) => SremMoves(s, o);
    case RunDelKey(o) => DelKeyMoves(s, o);
    case RunSetEx(o) => StoreMoves(s, o);
    case RunSadd(o) => StoreMoves(s, o);
    case RunSmembers(o, order) => SmembersMoves(s, o, order);
    case _ =>
  }

  lemma StepMovesSignatures(s: State, step: Step)
    requires Enabled(s, step)
    ensures SignaturesMove(s, step, Apply(s, step))
  {}

  lemma StepMovesRevokes(s: State, step: Step)
    requires Enabled(s, step)
    ensures RevokesMove(s, step, Apply(s, step))
  {
    match step
    case RunExpire(o) => FinishMoves(s, o, step);
    case RunDelIndex(o) => FinishMoves(s, o, step);
    case RunDelKey(o) => DelKeyMoves(s, o);
    case RunGetDel(o) =>
      var Consuming(claims, purpose) := s.ops[o];
      var owner := if LiveKey(s.db, claims.jti) then s.db.refresh[claims.jti].uid else claims.sub;
      OthersMove(s, o, Unlisting(claims, purpose, owner), step);
    case RunSrem(o) =>
      var Unlisting(claims, purpose, _) := s.ops[o];
      OthersMove(s, o, SigningAccess(FamilyOf(s.familyOf, claims.jti), claims.sub, claims.email), step);
    case RunSmembers(o, order) => SmembersRevokes(s, o, order);
    case _ =>
  }
}
