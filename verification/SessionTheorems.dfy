/** What the invariant means for clients: overlaps of stores and revoke-alls, linear
    rotation, conservation of tokens, and agreement of claims and keys. All of it for
    every interleaving of single commands. */
module SessionTheorems {
  import opened Prelude
  import opened Redis
  import opened SessionStore
  import opened Jwt
  import opened SessionMachine
  import opened SessionInvariants
  import opened SessionSteps
  import opened SessionMoves

  // --- Overlaps ---

  lemma OverlapsStep(s: State, step: Step, jti: Jti)
    requires Invariant(s) && Enabled(s, step)
    ensures jti in Apply(s, step).overlapped <==> jti in s.overlapped || Overlapping(Apply(s, step), jti)
  {
    StepMovesOverlaps(s, step);
    InvariantStep(s, step);
    OverlappingIsMarked(Apply(s, step).ops, Apply(s, step).overlapped, Apply(s, step), jti);
  }

  lemma OverlappingIsMarked(ops: Ops, overlapped: set<Jti>, s: State, jti: Jti)
    requires ops == s.ops && OverlapsMarked(ops, overlapped)
    ensures Overlapping(s, jti) ==> jti in overlapped
  {}

  /** The record of overlaps is exact: it names the tokens whose store was really
      in its pipeline while a revoke-all of the same user was deleting. */
  lemma {:induction false} OverlappedMeans(states: seq<State>, steps: seq<Step>, k: nat, jti: Jti)
    requires IsRun(states, steps) && Init(states[0]) && k < |states|
    ensures jti in states[k].overlapped <==> exists i :: 0 <= i <= k && Overlapping(states[i], jti)
  {
    if k > 0 {
      OverlappedMeans(states, steps, k - 1, jti);
      InvariantAlong(states, steps, k - 1);
      OverlapsStep(states[k - 1], steps[k - 1], jti);
    }
  }

  // --- Linear rotation ---

  function LiveOfFamily(s: State, family: Family): set<Jti> {
    set j | j in s.db.refresh && LiveKey(s.db, j) && FamilyOf(s.familyOf, j) == family
  }

  function ContinuersOf(s: State, family: Family): set<OpId> {
    set o | o in s.ops && Continues(s.familyOf, s.ops[o], family)
  }

  lemma AtMostOneElement<T>(a: set<T>)
    requires forall x, y :: x in a && y in a ==> x == y
    ensures |a| <= 1
  {
    if a != {} {
      var x :| x in a;
      assert a == {x};
    }
  }

  /** One login yields one session: its live token, or the handler about to replace it. */
  lemma LinearRotation(s: State, family: Family)
    requires Reachable(s)
    ensures |LiveOfFamily(s, family)| + |ContinuersOf(s, family)| <= 1
  {
    ReachableInvariant(s);
    var live, next := LiveOfFamily(s, family), ContinuersOf(s, family);
    AtMostOneElement(live);
    forall o, p | o in next && p in next ensures o == p {
      assert Continues(s.familyOf, s.ops[o], family) && Continues(s.familyOf, s.ops[p], family);
    }
    AtMostOneElement(next);
    if live != {} {
      var j :| j in live;
      assert forall o :: o in s.ops ==> !Continues(s.familyOf, s.ops[o], FamilyOf(s.familyOf, j));
    }
  }

  ghost predicate Spent(s: State, jti: Jti) {
    jti in s.stored && !LiveKey(s.db, jti)
  }

  lemma SpentMoves(s: State, step: Step, t: State, jti: Jti)
    requires OpsSound(s.issued, s.stored, s.db.refresh, s.ops) && KeysMove(s, step, t) && Spent(s, jti)
    ensures Spent(t, jti)
  {}

  lemma SpentStep(s: State, step: Step, jti: Jti)
    requires Invariant(s) && Enabled(s, step) && Spent(s, jti)
    ensures Spent(Apply(s, step), jti)
  {
    StepMovesKeys(s, step);
    SpentMoves(s, step, Apply(s, step), jti);
  }

  lemma SpentNext(states: seq<State>, steps: seq<Step>, m: nat, jti: Jti)
    requires IsRun(states, steps) && Init(states[0]) && m < |steps| && Spent(states[m], jti)
    ensures Spent(states[m + 1], jti)
  {
    InvariantAlong(states, steps, m);
    SpentStep(states[m], steps[m], jti);
  }

  /** A token that was stored and is no longer live is never live again. */
  lemma {:induction false} DeadStaysDead(states: seq<State>, steps: seq<Step>, i: nat, k: nat, jti: Jti)
    requires IsRun(states, steps) && Init(states[0]) && i <= k < |states|
    requires Spent(states[i], jti)
    ensures Spent(states[k], jti)
  {
    if i < k {
      DeadStaysDead(states, steps, i, k - 1, jti);
      SpentNext(states, steps, k - 1, jti);
    }
  }

  /** No token is consumed, logged out or revoked twice, nor in two of these ways. */
  lemma ConsumedOnce(s: State, i: nat, k: nat)
    requires Reachable(s) && i < |s.removed| && k < |s.removed| && s.removed[i].jti == s.removed[k].jti
    ensures i == k
    ensures !LiveKey(s.db, s.removed[i].jti)
  {
    ReachableInvariant(s);
  }

  // --- Conservation ---

  function RemovedBy(s: State, how: How): set<Jti> {
    set i | 0 <= i < |s.removed| && s.removed[i].how == how :: s.removed[i].jti
  }

  function LiveTokens(s: State): set<Jti> {
    set j | j in s.db.refresh && LiveKey(s.db, j)
  }

  /** Ran out: stored, its time has passed, and nobody took it before. */
  ghost function Expired(s: State): set<Jti> {
    set j | j in s.stored && s.stored[j].expiry <= s.db.now && !WasRemoved(s.removed, j)
  }

  function RemovedTokens(s: State): set<Jti> {
    RemovedBy(s, ByRefresh) + RemovedBy(s, ByLogout) + RemovedBy(s, ByRevokeAll)
  }

  lemma ClassesApart(s: State, how: How, other: How)
    requires RemovedOnce(s.removed, s.stored, s.db.refresh) && how != other
    ensures RemovedBy(s, how) !! RemovedBy(s, other)
  {}

  lemma RemovedSizes(s: State)
    requires RemovedOnce(s.removed, s.stored, s.db.refresh)
    ensures |RemovedTokens(s)| == |RemovedBy(s, ByRefresh)| + |RemovedBy(s, ByLogout)| + |RemovedBy(s, ByRevokeAll)|
  {
    ClassesApart(s, ByRefresh, ByLogout);
    ClassesApart(s, ByRefresh, ByRevokeAll);
    ClassesApart(s, ByLogout, ByRevokeAll);
    DisjointSizes(RemovedBy(s, ByRefresh), RemovedBy(s, ByLogout), RemovedBy(s, ByRevokeAll));
  }

  lemma DisjointSizes(a: set<Jti>, b: set<Jti>, c: set<Jti>)
    requires a !! b && a !! c && b !! c
    ensures |a + b + c| == |a| + |b| + |c|
  {}

  lemma Accounting(s: State, jti: Jti)
    requires Ledger(s) && KeysSound(s.db.refresh, s.stored)
    ensures jti in s.stored <==> jti in LiveTokens(s) || jti in RemovedTokens(s) || jti in Expired(s)
    ensures !(jti in LiveTokens(s) && jti in RemovedTokens(s))
    ensures !(jti in LiveTokens(s) && jti in Expired(s))
    ensures !(jti in RemovedTokens(s) && jti in Expired(s))
  {}

  lemma PartsMakeWhole(whole: set<Jti>, a: set<Jti>, b: set<Jti>, c: set<Jti>)
    requires forall j :: j in whole <==> j in a || j in b || j in c
    requires forall j :: !(j in a && j in b) && !(j in a && j in c) && !(j in b && j in c)
    ensures whole == a + b + c && |whole| == |a| + |b| + |c|
  {}

  /** Every token ever stored is in exactly one of the five classes: live, taken by a
      refresh, by a logout, by a revoke-all, or expired. */
  lemma Conservation(s: State)
    requires Reachable(s)
    ensures s.stored.Keys == LiveTokens(s) + RemovedTokens(s) + Expired(s)
    ensures |s.stored.Keys| == |LiveTokens(s)| + |RemovedBy(s, ByRefresh)| + |RemovedBy(s, ByLogout)|
                               + |RemovedBy(s, ByRevokeAll)| + |Expired(s)|
  {
    ReachableInvariant(s);
    ClassesPartition(s);
  }

  lemma ClassesPartition(s: State)
    requires Ledger(s) && KeysSound(s.db.refresh, s.stored)
    ensures s.stored.Keys == LiveTokens(s) + RemovedTokens(s) + Expired(s)
    ensures |s.stored.Keys| == |LiveTokens(s)| + |RemovedBy(s, ByRefresh)| + |RemovedBy(s, ByLogout)|
                               + |RemovedBy(s, ByRevokeAll)| + |Expired(s)|
  {
    forall j
      ensures j in s.stored.Keys <==> j in LiveTokens(s) || j in RemovedTokens(s) || j in Expired(s)
      ensures !(j in LiveTokens(s) && j in RemovedTokens(s)) && !(j in LiveTokens(s) && j in Expired(s))
              && !(j in RemovedTokens(s) && j in Expired(s))
    {
      Accounting(s, j);
    }
    PartsMakeWhole(s.stored.Keys, LiveTokens(s), RemovedTokens(s), Expired(s));
    RemovedSizes(s);
  }

  lemma {:induction false} InjectionSize<A, B>(a: set<A>, b: set<B>, f: A -> B)
    requires forall x :: x in a ==> f(x) in b
    requires forall x, y :: x in a && y in a && f(x) == f(y) ==> x == y
    ensures |a| <= |b|
  {
    if a != {} {
      var x :| x in a;
      InjectionSize(a - {x}, b - {f(x)}, f);
    }
  }

  function LoginsOf(s: State, uid: Uid): set<Family> {
    set f | f in s.families && s.families[f].uid == uid
  }

  /** A user never has more live tokens than successful password logins. */
  lemma LiveAtMostLogins(s: State, uid: Uid)
    requires Reachable(s)
    ensures |LiveOf(s.db, uid)| <= |LoginsOf(s, uid)|
  {
    ReachableInvariant(s);
    InjectionSize(LiveOf(s.db, uid), LoginsOf(s, uid), j => FamilyOf(s.familyOf, j));
  }

  // --- Claims and keys agree ---

  /** The key of a token names the user its claims name, claims are those of the
      password login the token descends from, and if that user still exists the
      claims carry the row's email. So `refresh` may ignore the uid that the store
      returns and sign for `claims.sub`. */
  lemma ClaimsAgree(s: State, claims: Claims)
    requires Reachable(s) && Genuine(s.issued, claims)
    ensures claims.jti in s.db.refresh ==> claims.kind == Refresh && s.db.refresh[claims.jti].uid == claims.sub
    ensures Carries(s.families, FamilyOf(s.familyOf, claims.jti), claims.sub, claims.email)
    ensures claims.sub in s.users ==> s.users[claims.sub] == claims.email
  {
    ReachableInvariant(s);
  }

  /** Members of one rotation chain carry the same subject and email. */
  lemma ChainsKeepClaims(s: State, one: Claims, other: Claims)
    requires Reachable(s) && Genuine(s.issued, one) && Genuine(s.issued, other)
    requires FamilyOf(s.familyOf, one.jti) == FamilyOf(s.familyOf, other.jti)
    ensures one.sub == other.sub && one.email == other.email
  {
    ReachableInvariant(s);
  }

  /** The refresh token of a live key is accepted for as long as the key lives exactly
      when it was stored within the leeway and a second of being signed: then Redis
      alone decides. */
  lemma LiveMeansAccepted(s: State, jti: Jti)
    requires Reachable(s) && LiveKey(s.db, jti)
    ensures jti in s.issued && jti in s.stored
    ensures (forall d: nat :: LiveKey(Tick(s.db, d), jti) ==>
               DecodeAndCheck(s.issued, s.issued[jti], Refresh, s.db.now + d, s.leeway) == Ok(s.issued[jti]))
            <==> s.stored[jti].expiry <= s.issued[jti].exp + s.leeway + 1
  {
    ReachableInvariant(s);
    var last := s.stored[jti].expiry - 1 - s.db.now;
    assert LiveKey(Tick(s.db, last), jti);
  }
}
