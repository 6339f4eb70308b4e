/** What a user can still do after a revoke-all, in every interleaving of single commands. */
module SessionRevocation {
  import opened Prelude
  import opened Redis
  import opened SessionStore
  import opened Jwt
  import opened SessionMachine
  import opened SessionInvariants
  import opened SessionSteps
  import opened SessionMoves
  import opened SessionCoverage

  ghost predicate LoggedOut(s: State, uid: Uid) {
    Quiet(s.ops, uid) && LiveOf(s.db, uid) == {}
  }

  lemma NotMidStore(s: State, uid: Uid, jti: Jti)
    requires OpsSound(s.issued, s.stored, s.db.refresh, s.ops) && StoredSound(s.issued, s.stored, s.db.now)
    requires Quiet(s.ops, uid) && jti in s.stored && s.stored[jti].uid == uid
    ensures !MidStore(s.ops, jti)
  {}

  lemma LoggedOutMoves(s: State, step: Step, t: State, uid: Uid)
    requires KeysMove(s, step, t) && FlightsMove(s, step, t) && Provenance(s)
    requires LoggedOut(s, uid) && !(step.BeginLogin? && step.uid == uid)
    ensures LoggedOut(t, uid)
  {
    assert forall j :: j in LiveOf(t.db, uid) ==> j in LiveOf(s.db, uid);
    if step.RunGetDel? && step.op in s.ops && s.ops[step.op].Consuming? {
      assert OpSound(s.issued, s.stored, s.db.refresh, s.ops[step.op]);
      assert s.ops[step.op].claims.jti !in LiveOf(s.db, uid);
    }
  }

  lemma LoggedOutStep(s: State, step: Step, uid: Uid)
    requires Invariant(s) && Enabled(s, step) && LoggedOut(s, uid) && !(step.BeginLogin? && step.uid == uid)
    ensures LoggedOut(Apply(s, step), uid)
  {
    StepMovesKeys(s, step);
    StepMovesFlights(s, step);
    LoggedOutMoves(s, step, Apply(s, step), uid);
  }

  /** No token of the user was signed after `t`. */
  ghost predicate SignedBy(issued: Issued, uid: Uid, t: int) {
    forall j :: j in issued && issued[j].sub == uid ==> issued[j].iat <= t
  }

  lemma SignedByStep(s: State, step: Step, uid: Uid, t: int)
    requires Enabled(s, step) && Quiet(s.ops, uid) && SignedBy(s.issued, uid, t)
    ensures SignedBy(Apply(s, step).issued, uid, t)
  {
    StepMovesSignatures(s, step);
  }

  /** A revoke-all of `uid` is in flight as `r` from step `i` (SMEMBERS) to step `e` (its last command). */
  ghost predicate RevokesFromTo(states: seq<State>, steps: seq<Step>, uid: Uid, r: OpId, i: nat, e: nat)
    requires |states| == |steps| + 1
  {
    && i <= e < |steps|
    && steps[i].RunSmembers? && steps[i].op == r
    && r in states[i].ops && states[i].ops[r] == Listing(uid)
    && (forall k :: i < k <= e ==> r in states[k].ops)
    && r !in states[e + 1].ops
  }

  /** What steps do to keys and to revoke-alls, along a run. */
  ghost predicate MovesAlong(states: seq<State>, steps: seq<Step>)
    requires |states| == |steps| + 1
  {
    forall m {:trigger steps[m]} :: 0 <= m < |steps| ==>
      KeysMove(states[m], steps[m], states[m + 1]) && RevokesMove(states[m], steps[m], states[m + 1])
  }

  lemma RunMoves(states: seq<State>, steps: seq<Step>)
    requires IsRun(states, steps)
    ensures MovesAlong(states, steps)
  {
    forall m | 0 <= m < |steps|
      ensures KeysMove(states[m], steps[m], states[m + 1]) && RevokesMove(states[m], steps[m], states[m + 1])
    {
      StepMovesKeys(states[m], steps[m]);
      StepMovesRevokes(states[m], steps[m]);
    }
  }

  // --- What a revoke-all takes and what it misses ---

  /** The token's SADD came before step `i`, and no revoke-all of the user deleted the
      index between the two. */
  ghost predicate Safe(states: seq<State>, steps: seq<Step>, uid: Uid, i: nat, jti: Jti)
    requires i < |states| == |steps| + 1
  {
    exists a :: 0 <= a < i && AddsFor(states[a], steps[a], uid, jti) && NoDropBetween(states, steps, uid, a, i)
  }

  /** The token's SADD came before step `e`, but either after step `i`, or before a
      revoke-all of the user that deleted the index before step `i`. */
  ghost predicate Missed(states: seq<State>, steps: seq<Step>, uid: Uid, i: nat, e: nat, jti: Jti)
    requires i <= e < |steps| && |states| == |steps| + 1
  {
    exists a :: 0 <= a <= e && AddsFor(states[a], steps[a], uid, jti) &&
      (a > i || !NoDropBetween(states, steps, uid, a, i))
  }

  ghost predicate LiveBetween(states: seq<State>, jti: Jti, i: nat, e: nat) {
    forall m :: i <= m <= e && m < |states| ==> LiveKey(states[m].db, jti)
  }

  /** A listed token stays on the list for as long as it lives. */
  lemma {:induction false} StaysOnList(states: seq<State>, steps: seq<Step>, uid: Uid, r: OpId, i: nat, e: nat, k: nat,
                                       jti: Jti)
    requires |states| == |steps| + 1 && MovesAlong(states, steps) && RevokesFromTo(states, steps, uid, r, i, e)
    requires i < k <= e && jti in steps[i].order && LiveBetween(states, jti, i, e)
    ensures states[k].ops[r].Deleting? && states[k].ops[r].uid == uid && jti in states[k].ops[r].rest
  {
    assert RevokesMove(states[k - 1], steps[k - 1], states[k]);
    if k > i + 1 {
      StaysOnList(states, steps, uid, r, i, e, k - 1, jti);
    }
  }

  /** So no listed token lives to the end of the revoke-all. */
  lemma ListIsDeleted(states: seq<State>, steps: seq<Step>, uid: Uid, r: OpId, i: nat, e: nat, jti: Jti)
    requires |states| == |steps| + 1 && MovesAlong(states, steps) && RevokesFromTo(states, steps, uid, r, i, e)
    requires jti in Members(states[i].db, uid)
    ensures !LiveBetween(states, jti, i, e)
  {
    assert RevokesMove(states[i], steps[i], states[i + 1]);
    assert RevokesMove(states[e], steps[e], states[e + 1]);
    if i < e && LiveBetween(states, jti, i, e) {
      StaysOnList(states, steps, uid, r, i, e, e, jti);
    }
  }

  lemma SafeIsListed(states: seq<State>, steps: seq<Step>, uid: Uid, i: nat, jti: Jti)
    requires IsRun(states, steps) && Init(states[0]) && i < |states|
    ensures Safe(states, steps, uid, i, jti) && LiveKey(states[i].db, jti) ==> jti in Members(states[i].db, uid)
    ensures Member(states[i].db, uid, jti) ==> Safe(states, steps, uid, i, jti)
  {
    RunMovesListing(states, steps, uid, jti);
    if a :| 0 <= a < i && AddsFor(states[a], steps[a], uid, jti) && NoDropBetween(states, steps, uid, a, i) {
      ListedUntil(states, steps, uid, jti, a, i);
    }
    if Member(states[i].db, uid, jti) {
      MemberWasAdded(states, steps, i, uid, jti);
      var a :| 0 <= a < i && AddsFor(states[a], steps[a], uid, jti);
      if m :| a < m < i && Drops(states[m], steps[m], uid) {
        GoneAfter(states, steps, uid, jti, a, m, i);
      }
    }
  }

  lemma LiveAllAlong(states: seq<State>, steps: seq<Step>, uid: Uid, jti: Jti, a: nat, i: nat, e: nat)
    requires IsRun(states, steps) && Init(states[0]) && a < i <= e < |steps|
    requires AddsFor(states[a], steps[a], uid, jti) && LiveKey(states[e + 1].db, jti)
    ensures LiveBetween(states, jti, i, e)
  {
    forall m | i <= m <= e ensures LiveKey(states[m].db, jti) {
      LiveSinceAdded(states, steps, uid, jti, a, m, e + 1);
    }
  }

  /** A safe token does not survive the revoke-all, and no token that is missed is ever
      on its list, whatever logins and refreshes of the user are under way. */
  lemma RevokeAllTakesSafe(states: seq<State>, steps: seq<Step>, uid: Uid, r: OpId, i: nat, e: nat, jti: Jti)
    requires IsRun(states, steps) && Init(states[0]) && RevokesFromTo(states, steps, uid, r, i, e)
    ensures Safe(states, steps, uid, i, jti) ==> !LiveKey(states[e + 1].db, jti)
    ensures !Safe(states, steps, uid, i, jti) ==> jti !in steps[i].order
    ensures LiveKey(states[i].db, jti) ==> (Safe(states, steps, uid, i, jti) <==> jti in steps[i].order)
  {
    SafeIsListed(states, steps, uid, i, jti);
    assert Enabled(states[i], steps[i]);
    if Safe(states, steps, uid, i, jti) && LiveKey(states[e + 1].db, jti) {
      var a :| 0 <= a < i && AddsFor(states[a], steps[a], uid, jti) && NoDropBetween(states, steps, uid, a, i);
      LiveAllAlong(states, steps, uid, jti, a, i, e);
      RunMoves(states, steps);
      ListIsDeleted(states, steps, uid, r, i, e, jti);
    }
  }

  /** Every token whose SADD has run by the end is safe or missed, and not both. */
  lemma SafeOrMissed(states: seq<State>, steps: seq<Step>, uid: Uid, r: OpId, i: nat, e: nat, jti: Jti, a: nat)
    requires IsRun(states, steps) && Init(states[0]) && RevokesFromTo(states, steps, uid, r, i, e)
    requires a <= e && AddsFor(states[a], steps[a], uid, jti)
    ensures Safe(states, steps, uid, i, jti) <==> !Missed(states, steps, uid, i, e, jti)
  {
    RunMovesListing(states, steps, uid, jti);
    forall b | 0 <= b <= e && AddsFor(states[b], steps[b], uid, jti) ensures b == a {
      AddsOnce(states, steps, uid, jti, a, b);
    }
  }

  /** No missed token is live at the end. */
  ghost predicate NoneMissed(states: seq<State>, steps: seq<Step>, uid: Uid, i: nat, e: nat)
    requires i <= e < |steps| && |states| == |steps| + 1
  {
    forall j :: Missed(states, steps, uid, i, e, j) ==> !LiveKey(states[e + 1].db, j)
  }

  lemma QuietlyAdded(states: seq<State>, steps: seq<Step>, uid: Uid, k: nat, jti: Jti) returns (a: nat)
    requires IsRun(states, steps) && Init(states[0]) && k < |states|
    requires Quiet(states[k].ops, uid) && jti in LiveOf(states[k].db, uid)
    ensures a < k && AddsFor(states[a], steps[a], uid, jti)
  {
    InvariantAlong(states, steps, k);
    NotMidStore(states[k], uid, jti);
    a := SettledSince(states, steps, k, jti);
  }

  lemma LeftIsMissed(states: seq<State>, steps: seq<Step>, uid: Uid, r: OpId, i: nat, e: nat, jti: Jti)
    requires IsRun(states, steps) && Init(states[0]) && RevokesFromTo(states, steps, uid, r, i, e)
    requires Quiet(states[e + 1].ops, uid) && jti in LiveOf(states[e + 1].db, uid)
    ensures Missed(states, steps, uid, i, e, jti)
  {
    var a := QuietlyAdded(states, steps, uid, e + 1, jti);
    RevokeAllTakesSafe(states, steps, uid, r, i, e, jti);
    SafeOrMissed(states, steps, uid, r, i, e, jti, a);
  }

  lemma MissedIsOwned(states: seq<State>, steps: seq<Step>, uid: Uid, i: nat, e: nat, jti: Jti)
    requires IsRun(states, steps) && Init(states[0]) && i <= e < |steps|
    requires Missed(states, steps, uid, i, e, jti) && LiveKey(states[e + 1].db, jti)
    ensures jti in LiveOf(states[e + 1].db, uid)
  {
    var a :| 0 <= a <= e && AddsFor(states[a], steps[a], uid, jti);
    RunMovesListing(states, steps, uid, jti);
    AddedUntil(states, steps, uid, jti, a, e + 1);
    InvariantAlong(states, steps, e + 1);
  }

  /** A revoke-all that returns with no login or refresh of the user past its check has
      logged the user out exactly when no token that it missed is live. */
  lemma RevokeAllLogsOutExactly(states: seq<State>, steps: seq<Step>, uid: Uid, r: OpId, i: nat, e: nat)
    requires IsRun(states, steps) && Init(states[0]) && RevokesFromTo(states, steps, uid, r, i, e)
    requires Quiet(states[e + 1].ops, uid)
    ensures LoggedOut(states[e + 1], uid) <==> NoneMissed(states, steps, uid, i, e)
  {
    forall j | j in LiveOf(states[e + 1].db, uid) ensures Missed(states, steps, uid, i, e, j) {
      LeftIsMissed(states, steps, uid, r, i, e, j);
    }
    forall j | Missed(states, steps, uid, i, e, j) && LiveKey(states[e + 1].db, j)
      ensures j in LiveOf(states[e + 1].db, uid)
    {
      MissedIsOwned(states, steps, uid, i, e, j);
    }
    if !LoggedOut(states[e + 1], uid) {
      var j :| j in LiveOf(states[e + 1].db, uid);
      assert Missed(states, steps, uid, i, e, j) && LiveKey(states[e + 1].db, j);
    }
  }

  /** No live token of the user had its index deleted after its SADD. */
  ghost predicate NeverDropped(states: seq<State>, steps: seq<Step>, uid: Uid, i: nat)
    requires i < |states| == |steps| + 1
  {
    forall j :: j in LiveOf(states[i].db, uid) ==> !IndexDroppedAfterAdd(states, steps, i, uid, j)
  }

  /** That is exactly when the index lists everything there is to revoke. */
  lemma ListedExactly(states: seq<State>, steps: seq<Step>, uid: Uid, i: nat)
    requires IsRun(states, steps) && Init(states[0]) && i < |states| && Quiet(states[i].ops, uid)
    ensures LiveOf(states[i].db, uid) <= Members(states[i].db, uid) <==> NeverDropped(states, steps, uid, i)
  {
    forall j | j in LiveOf(states[i].db, uid)
      ensures j in Members(states[i].db, uid) <==> !IndexDroppedAfterAdd(states, steps, i, uid, j)
    {
      InvariantAlong(states, steps, i);
      NotMidStore(states[i], uid, j);
      CommandLevelCoverage(states, steps, i, j);
    }
  }

  ghost predicate NoneAddedBetween(states: seq<State>, steps: seq<Step>, uid: Uid, i: nat, e: nat)
    requires i <= e < |steps| && |states| == |steps| + 1
  {
    forall m, j :: i < m <= e ==> !AddsFor(states[m], steps[m], uid, j)
  }

  lemma MissedWasDropped(states: seq<State>, steps: seq<Step>, uid: Uid, i: nat, e: nat, jti: Jti)
    requires i <= e < |steps| && |states| == |steps| + 1 && steps[i].RunSmembers?
    requires NoneAddedBetween(states, steps, uid, i, e) && Missed(states, steps, uid, i, e, jti)
    ensures IndexDroppedAfterAdd(states, steps, i, uid, jti)
  {
    var a :| 0 <= a <= e && AddsFor(states[a], steps[a], uid, jti) &&
      (a > i || !NoDropBetween(states, steps, uid, a, i));
    var m :| a < m < i && Drops(states[m], steps[m], uid);
  }

  lemma AddedWasLive(states: seq<State>, steps: seq<Step>, uid: Uid, a: nat, i: nat, e: nat, jti: Jti)
    requires IsRun(states, steps) && Init(states[0]) && a < i <= e < |steps|
    requires AddsFor(states[a], steps[a], uid, jti)
    ensures LiveKey(states[e + 1].db, jti) ==> jti in LiveOf(states[i].db, uid)
  {
    if LiveKey(states[e + 1].db, jti) {
      LiveSinceAdded(states, steps, uid, jti, a, i, e + 1);
    }
  }

  lemma DroppedWasLive(states: seq<State>, steps: seq<Step>, uid: Uid, i: nat, e: nat, jti: Jti)
    requires IsRun(states, steps) && Init(states[0]) && i <= e < |steps|
    requires IndexDroppedAfterAdd(states, steps, i, uid, jti)
    ensures LiveKey(states[e + 1].db, jti) ==> jti in LiveOf(states[i].db, uid)
  {
    var a :| 0 <= a < i && AddsFor(states[a], steps[a], uid, jti);
    AddedWasLive(states, steps, uid, a, i, e, jti);
  }

  /** So the user is logged out if the index listed every live token at the start, and
      no SADD of the user fell between the start and the end. */
  lemma RevokeAllLogsOut(states: seq<State>, steps: seq<Step>, uid: Uid, r: OpId, i: nat, e: nat)
    requires IsRun(states, steps) && Init(states[0]) && RevokesFromTo(states, steps, uid, r, i, e)
    requires Quiet(states[e + 1].ops, uid) && NeverDropped(states, steps, uid, i)
    requires NoneAddedBetween(states, steps, uid, i, e)
    ensures NoneMissed(states, steps, uid, i, e) && LoggedOut(states[e + 1], uid)
  {
    forall j | Missed(states, steps, uid, i, e, j) ensures !LiveKey(states[e + 1].db, j) {
      MissedWasDropped(states, steps, uid, i, e, j);
      DroppedWasLive(states, steps, uid, i, e, j);
    }
    RevokeAllLogsOutExactly(states, steps, uid, r, i, e);
  }

  ghost predicate NoLoginBetween(steps: seq<Step>, uid: Uid, i: nat, k: nat) {
    forall m :: i <= m < k && m < |steps| ==> !(steps[m].BeginLogin? && steps[m].uid == uid)
  }

  lemma {:induction false} LoggedOutThrough(states: seq<State>, steps: seq<Step>, uid: Uid, t: int, i: nat, k: nat)
    requires IsRun(states, steps) && Init(states[0]) && i <= k < |states|
    requires LoggedOut(states[i], uid) && SignedBy(states[i].issued, uid, t)
    requires NoLoginBetween(steps, uid, i, k)
    ensures LoggedOut(states[k], uid) && SignedBy(states[k].issued, uid, t)
  {
    if i < k {
      LoggedOutThrough(states, steps, uid, t, i, k - 1);
      InvariantAlong(states, steps, k - 1);
      LoggedOutStep(states[k - 1], steps[k - 1], uid);
      SignedByStep(states[k - 1], steps[k - 1], uid, t);
    }
  }

  /** A refresh presented now passes the signature check and finds its token in Redis. */
  ghost predicate RefreshAccepted(s: State, claims: Claims) {
    DecodeAndCheck(s.issued, claims, Refresh, s.db.now, s.leeway).Ok? && LiveKey(s.db, claims.jti)
  }

  lemma LoggedOutMeans(s: State, uid: Uid, t: int, claims: Claims)
    requires Provenance(s) && LoggedOut(s, uid) && SignedBy(s.issued, uid, t) && claims.sub == uid
    ensures !RefreshAccepted(s, claims)
    ensures s.db.now > t + 900 + s.leeway ==>
              DecodeAndCheck(s.issued, claims, Access, s.db.now, s.leeway).Err?
  {
    assert claims.jti !in LiveOf(s.db, uid);
  }

  lemma SignedSoFar(states: seq<State>, steps: seq<Step>, uid: Uid, k: nat)
    requires IsRun(states, steps) && Init(states[0]) && k < |states|
    ensures SignedBy(states[k].issued, uid, states[k].db.now)
  {
    InvariantAlong(states, steps, k);
  }

  lemma StaysLoggedOut(states: seq<State>, steps: seq<Step>, uid: Uid, r: OpId, i: nat, e: nat, k: nat)
    requires IsRun(states, steps) && Init(states[0]) && RevokesFromTo(states, steps, uid, r, i, e)
    requires Quiet(states[e + 1].ops, uid) && NoneMissed(states, steps, uid, i, e)
    requires e < k < |states| && NoLoginBetween(steps, uid, e + 1, k)
    ensures LoggedOut(states[k], uid) && SignedBy(states[k].issued, uid, states[e + 1].db.now)
  {
    RevokeAllLogsOutExactly(states, steps, uid, r, i, e);
    SignedSoFar(states, steps, uid, e + 1);
    LoggedOutThrough(states, steps, uid, states[e + 1].db.now, e + 1, k);
  }

  /** A revoke-all of the user ran from step `i` to step `e` and left neither a missed
      token alive nor a login or refresh of the user past its check. Then, as long as
      the user does not log in again, the user has no live refresh token, so none is
      ever accepted, nor consumed by a handler that checked it before; and no access
      token is accepted later than 15 minutes plus the leeway after the end. */
  lemma BoundedAccessAfterRevokeAll(states: seq<State>, steps: seq<Step>, uid: Uid, r: OpId, i: nat, e: nat,
                                    k: nat, claims: Claims)
    requires IsRun(states, steps) && Init(states[0]) && RevokesFromTo(states, steps, uid, r, i, e)
    requires Quiet(states[e + 1].ops, uid) && NoneMissed(states, steps, uid, i, e)
    requires e < k < |states| && NoLoginBetween(steps, uid, e + 1, k)
    requires claims.sub == uid
    ensures LiveOf(states[k].db, uid) == {} && !RefreshAccepted(states[k], claims)
    ensures states[k].db.now > states[e + 1].db.now + 900 + states[k].leeway ==>
              DecodeAndCheck(states[k].issued, claims, Access, states[k].db.now, states[k].leeway).Err?
  {
    StaysLoggedOut(states, steps, uid, r, i, e, k);
    InvariantAlong(states, steps, k);
    LoggedOutMeans(states[k], uid, states[e + 1].db.now, claims);
  }
}
