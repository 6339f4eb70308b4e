/** Two runs of the machine that differ in one place: whether the SADD of a store falls
    before or after the DEL of the index by a revoke-all that is already under way. */
module SessionMissed {
  import opened Prelude
  import opened Redis
  import opened SessionStore
  import opened Jwt
  import opened SessionMachine
  import opened SessionAlone
  import opened SessionRevocation

  lemma ReachesNext(s: State, step: Step)
    requires Reachable(s) && Enabled(s, step)
    ensures Reachable(Apply(s, step))
  {
    var states, steps :| IsRun(states, steps) && Init(states[0]) && states[|steps|] == s;
    var longer, more := states + [Apply(s, step)], steps + [step];
    forall i | 0 <= i < |more| ensures Enabled(longer[i], more[i]) && longer[i + 1] == Apply(longer[i], more[i]) {
      assert longer[i] == states[i];
      if i < |steps| {
        assert more[i] == steps[i] && longer[i + 1] == states[i + 1];
      }
    }
    assert IsRun(longer, more) && longer[0] == states[0] && longer[|more|] == Apply(s, step);
  }

  /** A run from `s` to `t`. */
  ghost predicate Leads(s: State, steps: seq<Step>, t: State)
    decreases |steps|
  {
    if steps == [] then t == s else Enabled(s, steps[0]) && Leads(Apply(s, steps[0]), steps[1..], t)
  }

  lemma {:induction false} LeadsReach(s: State, steps: seq<Step>, t: State)
    requires Reachable(s) && Leads(s, steps, t)
    ensures Reachable(t)
    decreases |steps|
  {
    if steps != [] {
      ReachesNext(s, steps[0]);
      LeadsReach(Apply(s, steps[0]), steps[1..], t);
    }
  }

  lemma {:induction false} LeadsOn(s: State, steps: seq<Step>, t: State, more: seq<Step>, u: State)
    requires Leads(s, steps, t) && Leads(t, more, u)
    ensures Leads(s, steps + more, u)
    decreases |steps|
  {
    if steps == [] {
      assert steps + more == more;
    } else {
      assert (steps + more)[0] == steps[0] && (steps + more)[1..] == steps[1..] + more;
      LeadsOn(Apply(s, steps[0]), steps[1..], t, more, u);
    }
  }

  lemma LeadsBy(s: State, step: Step, u: State)
    requires Enabled(s, step) && u == Apply(s, step)
    ensures Leads(s, [step], u)
  {
    assert [step][1..] == [];
    assert Leads(u, [], u);
  }

  lemma LeadsTo(s: State, steps: seq<Step>, t: State, step: Step, u: State)
    requires Leads(s, steps, t) && Enabled(t, step) && u == Apply(t, step)
    ensures Leads(s, steps + [step], u)
  {
    LeadsBy(t, step, u);
    LeadsOn(s, steps, t, [step], u);
  }

  lemma Signs(s: State, o: OpId, a: Jti, r: Jti) returns (t: State, steps: seq<Step>)
    requires o in s.ops && s.ops[o].SigningAccess? && a !in s.issued && r !in s.issued && a != r
    ensures Leads(s, steps, t)
    ensures var SigningAccess(family, sub, email) := s.ops[o];
            && t == s.(ops := t.ops, issued := t.issued, familyOf := t.familyOf)
            && t.ops == s.ops[o := Storing(ToSet, family, sub, r)]
            && t.issued.Keys == s.issued.Keys + {a, r}
            && t.issued[r] == SignWithClaims(s.db.now, sub, email, Refresh, r)
  {
    var SigningAccess(family, sub, email) := s.ops[o];
    var signed := Act(Sign(s, sub, email, Access, family, a), o, SigningRefresh(family, sub, email));
    LeadsBy(s, SignAccess(o, a), signed);
    t := Act(Sign(signed, sub, email, Refresh, family, r), o, Storing(ToSet, family, sub, r));
    steps := [SignAccess(o, a)] + [SignRefresh(o, r)];
    LeadsTo(s, [SignAccess(o, a)], signed, SignRefresh(o, r), t);
    assert t.ops == s.ops[o := Storing(ToSet, family, sub, r)];
  }

  /** A login of an existing user, up to its store. */
  lemma SignsIn(s: State, o: OpId, uid: Uid, family: Family, a: Jti, r: Jti) returns (t: State, steps: seq<Step>)
    requires o !in s.ops && uid in s.users && family !in s.families
    requires a !in s.issued && r !in s.issued && a != r
    ensures Leads(s, steps, t)
    ensures t.db == s.db && t.users == s.users
    ensures t.ops == s.ops[o := Storing(ToSet, family, uid, r)]
    ensures t.families.Keys == s.families.Keys + {family} && t.issued.Keys == s.issued.Keys + {a, r}
    ensures t.issued[r] == SignWithClaims(s.db.now, uid, s.users[uid], Refresh, r)
  {
    var email := s.users[uid];
    var begun := Act(s, o, SigningAccess(family, uid, email)).(families := s.families[family := Login(uid, email)]);
    LeadsBy(s, BeginLogin(o, uid, family), begun);
    var more;
    t, more := Signs(begun, o, a, r);
    steps := [BeginLogin(o, uid, family)] + more;
    LeadsOn(s, [BeginLogin(o, uid, family)], begun, more, t);
    assert t.ops == s.ops[o := Storing(ToSet, family, uid, r)];
  }

  /** A store whose commands run back to back. */
  lemma StoresAtOnce(s: State, o: OpId) returns (t: State, steps: seq<Step>)
    requires At(s, o, ToSet)
    ensures Leads(s, steps, t)
    ensures t.users == s.users && t.families == s.families && t.issued == s.issued && t.leeway == s.leeway
    ensures t.db == Stored(s.db, s.ops[o].jti, s.ops[o].sub, REFRESH_TTL) && t.ops == s.ops - {o}
  {
    var one := SetExStep(s, o);
    LeadsBy(s, RunSetEx(o), one);
    var two := SaddStep(one, o);
    LeadsTo(s, [RunSetEx(o)], one, RunSadd(o), two);
    t := Finish(two, o).(db := ExpireIndex(two.db, two.ops[o].sub, REFRESH_TTL));
    steps := [RunSetEx(o)] + [RunSadd(o)] + [RunExpire(o)];
    LeadsTo(s, [RunSetEx(o)] + [RunSadd(o)], two, RunExpire(o), t);
    StoreAlone(s, o);
    assert t.ops == s.ops - {o};
  }

  lemma ListsSessions(s: State, o: OpId, uid: Uid, order: seq<Jti>) returns (t: State, steps: seq<Step>)
    requires o !in s.ops && order != [] && forall j :: j in order <==> j in Members(s.db, uid)
    ensures Leads(s, steps, t)
    ensures t.db == s.db && t.issued == s.issued && t.leeway == s.leeway
    ensures t.ops == s.ops[o := Deleting(uid, order)]
  {
    var begun := Act(s, o, Listing(uid));
    LeadsBy(s, BeginRevokeAll(o, uid), begun);
    t := SmembersStep(begun, o, order);
    steps := [BeginRevokeAll(o, uid)] + [RunSmembers(o, order)];
    LeadsTo(s, [BeginRevokeAll(o, uid)], begun, RunSmembers(o, order), t);
    assert t.ops == s.ops[o := Deleting(uid, order)];
  }

  /** User 7 holds token 2, a second login is about to store token 4, and a revoke-all
      has just listed the sessions. */
  ghost predicate Staged(s: State, email: Email) {
    && s.db == Db(0, map[2 := Session(7, REFRESH_TTL)], map[7 := Index({2}, Some(REFRESH_TTL))], map[])
    && s.ops == map[1 := Storing(ToSet, 1, 7, 4), 2 := Deleting(7, [2])]
    && 4 in s.issued && s.issued[4] == SignWithClaims(0, 7, email, Refresh, 4)
  }

  lemma FirstStored()
    ensures Stored(EMPTY_DB, 2, 7, REFRESH_TTL) ==
            Db(0, map[2 := Session(7, REFRESH_TTL)], map[7 := Index({2}, Some(REFRESH_TTL))], map[])
  {
    assert Members(EMPTY_DB, 7) + {2} == {2};
  }

  const START := State(EMPTY_DB, 0, map[], {}, map[], map[], map[], map[], map[], [], {})

  lemma StartReachable()
    ensures Reachable(START)
  {
    var none: seq<Step> := [];
    assert IsRun([START], none) && [START][|none|] == START;
  }

  lemma SignsUp(email: Email) returns (s: State, steps: seq<Step>)
    ensures Leads(START, steps, s)
    ensures s == START.(users := map[7 := email], everUsers := {7})
  {
    s := START.(users := map[7 := email], everUsers := {7});
    steps := [Register(7, email)];
    LeadsBy(START, Register(7, email), s);
  }

  lemma FirstSession(email: Email) returns (s: State, steps: seq<Step>)
    ensures Leads(START, steps, s)
    ensures s.db == Stored(EMPTY_DB, 2, 7, REFRESH_TTL)
    ensures s.ops == map[] && s.users == map[7 := email] && s.families.Keys == {0} && s.issued.Keys == {1, 2}
    ensures s.issued[2] == SignWithClaims(0, 7, email, Refresh, 2)
  {
    var one, first := SignsUp(email);
    var two, second := SignsIn(one, 0, 7, 0, 1, 2);
    LeadsOn(START, first, one, second, two);
    var third;
    s, third := StoresAtOnce(two, 0);
    steps := first + second + third;
    LeadsOn(START, first + second, two, third, s);
  }

  lemma SecondSignIn(email: Email) returns (s: State)
    ensures Reachable(s) && s.db == Stored(EMPTY_DB, 2, 7, REFRESH_TTL)
    ensures s.ops == map[1 := Storing(ToSet, 1, 7, 4)]
    ensures 4 in s.issued && s.issued[4] == SignWithClaims(0, 7, email, Refresh, 4)
  {
    var one, first := FirstSession(email);
    var second;
    s, second := SignsIn(one, 1, 7, 1, 3, 4);
    LeadsOn(START, first, one, second, s);
    StartReachable();
    LeadsReach(START, first + second, s);
  }

  lemma Stage(email: Email) returns (s: State)
    ensures Reachable(s) && Staged(s, email)
  {
    var signed := SecondSignIn(email);
    FirstStored();
    var steps;
    s, steps := ListsSessions(signed, 2, 7, [2]);
    LeadsReach(signed, steps, s);
  }

  /** SETEX, SADD and EXPIRE before the DELs: the second token is live for 7 days, no
      index lists it, and the user's next revoke-all, run to its end, leaves it usable. */
  lemma StoreIsMissed(email: Email) returns (t: State, later: State)
    ensures Reachable(t) && t.ops == map[] && LiveKey(t.db, 4) && !Indexed(t.db, 4) && Members(t.db, 7) == {}
    ensures Enabled(t, BeginRevokeAll(3, 7)) && Enabled(Apply(t, BeginRevokeAll(3, 7)), RunSmembers(3, []))
    ensures later == Apply(Apply(t, BeginRevokeAll(3, 7)), RunSmembers(3, []))
    ensures later.ops == map[] && 4 in later.issued && RefreshAccepted(later, later.issued[4])
  {
    var s := Stage(email);
    var stored, store := StoresAtOnce(s, 1);
    var rest;
    t, rest := Deletes(stored);
    LeadsReach(s, store, stored);
    LeadsReach(stored, rest, t);
    later := FindsNothing(t);
  }

  lemma FindsNothing(t: State) returns (later: State)
    requires t.ops == map[] && Members(t.db, 7) == {}
    ensures Enabled(t, BeginRevokeAll(3, 7)) && Enabled(Apply(t, BeginRevokeAll(3, 7)), RunSmembers(3, []))
    ensures later == Apply(Apply(t, BeginRevokeAll(3, 7)), RunSmembers(3, []))
    ensures later == t
  {
    later := Apply(Apply(t, BeginRevokeAll(3, 7)), RunSmembers(3, []));
    assert later.ops == t.ops;
  }

  lemma DeletesAfter(s: State, steps: seq<Step>, listed: State) returns (t: State)
    requires Leads(s, steps, listed) && 2 in listed.ops && listed.ops[2] == Deleting(7, [2])
    ensures Leads(s, steps + [RunDelKey(2)] + [RunDelIndex(2)], t)
    ensures t.db == DelIndex(DelKey(listed.db, 2), 7) && t.ops == listed.ops - {2}
    ensures t.issued == listed.issued && t.leeway == listed.leeway && t.overlapped == listed.overlapped
  {
    var deleted := DelKeyStep(listed, 2);
    LeadsTo(s, steps, listed, RunDelKey(2), deleted);
    t := Finish(deleted, 2).(db := DelIndex(deleted.db, 7));
    LeadsTo(s, steps + [RunDelKey(2)], deleted, RunDelIndex(2), t);
    assert t.ops == listed.ops - {2};
  }

  lemma Deletes(s: State) returns (t: State, steps: seq<Step>)
    requires 2 in s.ops && s.ops[2] == Deleting(7, [2])
    ensures Leads(s, steps, t)
    ensures t.db == DelIndex(DelKey(s.db, 2), 7) && t.ops == s.ops - {2}
    ensures t.issued == s.issued && t.leeway == s.leeway && t.overlapped == s.overlapped
  {
    t := DeletesAfter(s, [], s);
    steps := [] + [RunDelKey(2)] + [RunDelIndex(2)];
  }

  /** SETEX before the DELs, SADD and EXPIRE after them: the pipelines overlap just as
      much, and the index ends up listing the token. */
  lemma OverlappedYetCovered(email: Email) returns (t: State)
    ensures Reachable(t) && t.ops == map[] && 4 in t.overlapped
    ensures LiveKey(t.db, 4) && Indexed(t.db, 4) && Members(t.db, 7) == {4}
  {
    var s := Stage(email);
    var set_, first := SetsInside(s);
    LeadsReach(s, first, set_);
    var deleted, second := Deletes(set_);
    LeadsReach(set_, second, deleted);
    var third;
    t, third := AddsLate(deleted);
    LeadsReach(deleted, third, t);
    LateIsIndexed(s.db);
  }

  lemma LateIsIndexed(db: Db)
    requires db.now == 0
    ensures var dropped := DelIndex(DelKey(SetEx(db, 4, 7, REFRESH_TTL), 2), 7);
            var after := ExpireIndex(Sadd(dropped, 7, 4), 7, REFRESH_TTL);
            LiveKey(after, 4) && Indexed(after, 4) && Members(after, 7) == {4}
  {}

  lemma SetsInside(s: State) returns (t: State, steps: seq<Step>)
    requires s.ops == map[1 := Storing(ToSet, 1, 7, 4), 2 := Deleting(7, [2])]
    ensures Leads(s, steps, t)
    ensures t.db == SetEx(s.db, 4, 7, REFRESH_TTL) && 4 in t.overlapped
    ensures t.ops == map[1 := Storing(ToAdd, 1, 7, 4), 2 := Deleting(7, [2])]
  {
    t, steps := SetExStep(s, 1), [RunSetEx(1)];
    LeadsBy(s, RunSetEx(1), t);
    assert s.ops[2] == Deleting(7, [2]);
  }

  lemma AddsLate(s: State) returns (t: State, steps: seq<Step>)
    requires At(s, 1, ToAdd)
    ensures Leads(s, steps, t)
    ensures t.db == ExpireIndex(Sadd(s.db, s.ops[1].sub, s.ops[1].jti), s.ops[1].sub, REFRESH_TTL)
    ensures t.ops == s.ops - {1} && t.overlapped == s.overlapped
  {
    var added := SaddStep(s, 1);
    LeadsBy(s, RunSadd(1), added);
    t := Finish(added, 1).(db := ExpireIndex(added.db, added.ops[1].sub, REFRESH_TTL));
    steps := [RunSadd(1)] + [RunExpire(1)];
    LeadsTo(s, [RunSadd(1)], added, RunExpire(1), t);
    assert t.ops == s.ops - {1};
  }

  // --- A refresh that a revoke-all does not stop ---

  lemma Consumes(s: State, o: OpId, claims: Claims, uid: Uid) returns (t: State, steps: seq<Step>)
    requires o !in s.ops && LiveKey(s.db, claims.jti) && s.db.refresh[claims.jti].uid == uid
    requires DecodeAndCheck(s.issued, claims, Refresh, s.db.now, s.leeway).Ok?
    ensures Leads(s, steps, t)
    ensures t.db == DelKey(s.db, claims.jti) && t.ops == s.ops[o := Unlisting(claims, Rotate, uid)]
    ensures t.issued == s.issued && t.leeway == s.leeway
  {
    var begun := Act(s, o, Consuming(claims, Rotate));
    LeadsBy(s, BeginConsume(o, claims, Rotate), begun);
    t := GetDelStep(begun, o);
    steps := [BeginConsume(o, claims, Rotate)] + [RunGetDel(o)];
    LeadsTo(s, [BeginConsume(o, claims, Rotate)], begun, RunGetDel(o), t);
    assert t.ops == s.ops[o := Unlisting(claims, Rotate, uid)];
  }

  lemma Unlists(s: State, o: OpId, claims: Claims, uid: Uid) returns (t: State, steps: seq<Step>)
    requires o in s.ops && s.ops[o] == Unlisting(claims, Rotate, uid)
    ensures Leads(s, steps, t)
    ensures t.db == Srem(s.db, uid, claims.jti) && t.issued == s.issued && t.leeway == s.leeway
    ensures o in t.ops && t.ops.Keys == s.ops.Keys
    ensures t.ops[o].SigningAccess? && t.ops[o].sub == claims.sub && t.ops[o].email == claims.email
  {
    t, steps := SremStep(s, o), [RunSrem(o)];
    LeadsBy(s, RunSrem(o), t);
  }

  lemma SessionConsumed(email: Email) returns (s: State, claims: Claims)
    ensures Reachable(s) && claims == SignWithClaims(0, 7, email, Refresh, 2)
    ensures s.db == DelKey(Stored(EMPTY_DB, 2, 7, REFRESH_TTL), 2)
    ensures s.ops == map[1 := Unlisting(claims, Rotate, 7)] && s.issued.Keys == {1, 2}
  {
    var one, first := FirstSession(email);
    StartReachable();
    LeadsReach(START, first, one);
    claims := one.issued[2];
    FirstStored();
    var steps;
    s, steps := Consumes(one, 1, claims, 7);
    LeadsReach(one, steps, s);
  }

  /** The commands of a revoke-all of user 7 that finds token 2. */
  const REVOKE_ALL := [BeginRevokeAll(2, 7)] + [RunSmembers(2, [2])] + [RunDelKey(2)] + [RunDelIndex(2)]

  /** A refresh has taken its token with GETDEL when a revoke-all of the user starts
      (`c`). The revoke-all runs to its end and leaves the user no live token (`s`). The
      refresh then goes on and stores a new one, which is listed and accepted (`t`). */
  lemma RefreshOutlivesRevokeAll(email: Email) returns (c: State, s: State, t: State, rest: seq<Step>, claims: Claims)
    ensures Reachable(c) && c.ops == map[1 := Unlisting(claims, Rotate, 7)]
    ensures Leads(c, REVOKE_ALL, s) && s.ops == c.ops && LiveOf(s.db, 7) == {}
    ensures Leads(s, rest, t) && t.ops == map[] && Members(t.db, 7) == {4}
    ensures 4 in t.issued && t.issued[4].sub == 7 && RefreshAccepted(t, t.issued[4])
  {
    c, claims := SessionConsumed(email);
    s := RevokedMeanwhile(c, claims);
    t, rest := RefreshGoesOn(s, claims);
  }

  lemma RevokedMeanwhile(s: State, claims: Claims) returns (t: State)
    requires s.ops == map[1 := Unlisting(claims, Rotate, 7)]
    requires s.db == DelKey(Stored(EMPTY_DB, 2, 7, REFRESH_TTL), 2)
    ensures Leads(s, REVOKE_ALL, t)
    ensures t.ops == s.ops && t.issued == s.issued && t.db == Db(0, map[], map[], map[])
  {
    FirstStored();
    var listed := ListsToken(s);
    t := DeletesAfter(s, [BeginRevokeAll(2, 7)] + [RunSmembers(2, [2])], listed);
    assert t.ops == s.ops;
  }

  lemma ListsToken(s: State) returns (t: State)
    requires 2 !in s.ops && Members(s.db, 7) == {2}
    ensures Leads(s, [BeginRevokeAll(2, 7)] + [RunSmembers(2, [2])], t)
    ensures t.db == s.db && t.ops == s.ops[2 := Deleting(7, [2])] && t.issued == s.issued
  {
    var begun := Act(s, 2, Listing(7));
    LeadsBy(s, BeginRevokeAll(2, 7), begun);
    t := SmembersStep(begun, 2, [2]);
    LeadsTo(s, [BeginRevokeAll(2, 7)], begun, RunSmembers(2, [2]), t);
    assert t.ops == s.ops[2 := Deleting(7, [2])];
  }

  lemma RefreshGoesOn(s: State, claims: Claims) returns (t: State, steps: seq<Step>)
    requires s.ops == map[1 := Unlisting(claims, Rotate, 7)] && s.db == Db(0, map[], map[], map[])
    requires claims.sub == 7 && s.issued.Keys == {1, 2}
    ensures Leads(s, steps, t) && t.ops == map[] && Members(t.db, 7) == {4}
    ensures 4 in t.issued && t.issued[4].sub == 7 && RefreshAccepted(t, t.issued[4])
  {
    var unlisted, first := Unlists(s, 1, claims, 7);
    var signed, second := Signs(unlisted, 1, 3, 4);
    LeadsOn(s, first, unlisted, second, signed);
    var third;
    t, third := StoresAtOnce(signed, 1);
    steps := first + second + third;
    LeadsOn(s, first + second, signed, third, t);
    assert t.ops == map[];
  }
}
