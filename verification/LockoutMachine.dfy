/** Logins in flight, each command of the lockout a step of its own: how far the
    counter can go, when a lock ends, and that no counter is left without expiry. */
module LockoutMachine {
  import opened Prelude
  import opened Redis
  import opened Lockout

  type OpId = nat

  /** Where a login is: before `is_locked`, past it, or between INCR and EXPIRE. */
  datatype Phase = Checking | Verifying | Expiring

  datatype Attempt = Attempt(email: Email, phase: Phase)

  datatype State = State(db: Db, ops: map<OpId, Attempt>)

  datatype Step =
    | Wait(d: nat)
    | Begin(op: OpId, email: Email)
    | Check(op: OpId)
    | UnknownEmail(op: OpId)
    | WrongPassword(op: OpId)
    | RunExpire(op: OpId)
    | RightPassword(op: OpId)

  predicate In(s: State, o: OpId, phase: Phase) {
    o in s.ops && s.ops[o].phase == phase
  }

  predicate Enabled(s: State, step: Step) {
    match step
    case Wait(_) => true
    case Begin(o, _) => o !in s.ops
    case Check(o) => In(s, o, Checking)
    case UnknownEmail(o) => In(s, o, Verifying)
    case WrongPassword(o) => In(s, o, Verifying)
    case RunExpire(o) => In(s, o, Expiring)
    case RightPassword(o) => In(s, o, Verifying)
  }

  function Finish(s: State, o: OpId): State {
    s.(ops := s.ops - {o})
  }

  function Apply(s: State, step: Step): State
    requires Enabled(s, step)
  {
    match step
    case Wait(d) => s.(db := Tick(s.db, d))
    case Begin(o, email) => s.(ops := s.ops[o := Attempt(email, Checking)])
    case Check(o) =>
      // a locked attempt is turned away and not recorded
      if Locked(s.db, s.ops[o].email) then Finish(s, o) else s.(ops := s.ops[o := s.ops[o].(phase := Verifying)])
    case UnknownEmail(o) => Finish(s, o)
    case WrongPassword(o) =>
      s.(db := Incr(s.db, LockoutKey(s.ops[o].email)), ops := s.ops[o := s.ops[o].(phase := Expiring)])
    case RunExpire(o) => Finish(s, o).(db := ExpireCounter(s.db, LockoutKey(s.ops[o].email), LOCKOUT_WINDOW))
    case RightPassword(o) => Finish(s, o).(db := DelCounter(s.db, LockoutKey(s.ops[o].email)))
  }

  /** Commands that run back to back do what the store's methods promise. */
  lemma AttemptAlone(s: State, o: OpId)
    requires In(s, o, Verifying)
    ensures var email, failed := s.ops[o].email, Apply(s, WrongPassword(o));
            && In(failed, o, Expiring)
            && Apply(failed, RunExpire(o)).db == FailureRecorded(s.db, email)
            && Apply(s, RightPassword(o)).db == Cleared(s.db, email)
            && Apply(s, UnknownEmail(o)).db == s.db
  {}

  ghost predicate Init(s: State) {
    s.db.counters == map[] && s.ops == map[]
  }

  ghost predicate IsRun(states: seq<State>, steps: seq<Step>) {
    && |states| == |steps| + 1
    && forall i :: 0 <= i < |steps| ==> Enabled(states[i], steps[i]) && states[i + 1] == Apply(states[i], steps[i])
  }

  function InFlight(s: State, email: Email): set<OpId> {
    set o | o in s.ops && s.ops[o].email == email
  }

  /** Past `is_locked`, failure not yet recorded. */
  function Pending(s: State, email: Email): set<OpId> {
    set o | o in s.ops && s.ops[o] == Attempt(email, Verifying)
  }

  predicate WithinBound(s: State, email: Email, k: nat) {
    Count(s.db, LockoutKey(email)) + |Pending(s, email)| <= LOCKOUT_MAX - 1 + k
  }

  lemma WithinBoundStep(s: State, step: Step, email: Email, k: nat)
    requires Enabled(s, step) && WithinBound(s, email, k) && |InFlight(Apply(s, step), email)| <= k
    ensures WithinBound(Apply(s, step), email, k)
  {
    var t := Apply(s, step);
    if step.Check? && s.ops[step.op].email == email && !Locked(s.db, email) {
      SubsetSize(Pending(t, email), InFlight(t, email));
    } else if step.WrongPassword? && s.ops[step.op].email == email {
      assert Pending(t, email) == Pending(s, email) - {step.op};
    } else {
      assert Pending(t, email) <= Pending(s, email);
      SubsetSize(Pending(t, email), Pending(s, email));
      assert Count(t.db, LockoutKey(email)) <= Count(s.db, LockoutKey(email));
    }
  }

  /** With at most `k` logins of an email in flight, no interleaving takes its
      failure count, together with the failures still to be recorded, past `9 + k`. */
  lemma {:induction false} FailuresBounded(states: seq<State>, steps: seq<Step>, email: Email, k: nat, i: nat)
    requires IsRun(states, steps) && Init(states[0]) && i < |states|
    requires forall m :: 0 <= m < |states| ==> |InFlight(states[m], email)| <= k
    ensures Count(states[i].db, LockoutKey(email)) + |Pending(states[i], email)| <= 9 + k
  {
    if i == 0 {
      assert Pending(states[0], email) == {};
    } else {
      FailuresBounded(states, steps, email, k, i - 1);
      assert states[i] == Apply(states[i - 1], steps[i - 1]);
      WithinBoundStep(states[i - 1], steps[i - 1], email, k);
    }
  }

  // --- The bound counts each failure once ---

  /** Failure recorded by INCR, EXPIRE still to run. */
  function Recording(s: State, email: Email): set<OpId> {
    set o | o in s.ops && s.ops[o] == Attempt(email, Expiring)
  }

  /** All logins past `is_locked` that have not finished. */
  function Passed(s: State, email: Email): set<OpId> {
    set o | o in s.ops && s.ops[o].email == email && s.ops[o].phase != Checking
  }

  lemma PassedSplits(s: State, email: Email)
    ensures |Passed(s, email)| == |Pending(s, email)| + |Recording(s, email)|
  {
    assert Passed(s, email) == Pending(s, email) + Recording(s, email);
    assert Pending(s, email) !! Recording(s, email);
  }

  /** Counting every unfinished login, the bound is exceeded by at most the logins
      between INCR and EXPIRE; so it holds whenever there are none. */
  lemma UnfinishedBounded(states: seq<State>, steps: seq<Step>, email: Email, k: nat, i: nat)
    requires IsRun(states, steps) && Init(states[0]) && i < |states|
    requires forall m :: 0 <= m < |states| ==> |InFlight(states[m], email)| <= k
    ensures Count(states[i].db, LockoutKey(email)) + |Passed(states[i], email)| <= 9 + k + |Recording(states[i], email)|
  {
    FailuresBounded(states, steps, email, k, i);
    PassedSplits(states[i], email);
  }

  ghost predicate OneAtATime(states: seq<State>, email: Email) {
    forall m :: 0 <= m < |states| ==> |InFlight(states[m], email)| <= 1
  }

  /** With one login at a time it holds except exactly while the email is locked and a
      login is between INCR and EXPIRE. */
  lemma UnfinishedBoundExactly(states: seq<State>, steps: seq<Step>, email: Email, i: nat)
    requires IsRun(states, steps) && Init(states[0]) && i < |states| && OneAtATime(states, email)
    ensures Count(states[i].db, LockoutKey(email)) + |Passed(states[i], email)| <= 9 + 1 <==>
            !(Locked(states[i].db, email) && Recording(states[i], email) != {})
  {
    UnfinishedBounded(states, steps, email, 1, i);
    FailuresBounded(states, steps, email, 1, i);
    SubsetSize(Passed(states[i], email), InFlight(states[i], email));
    PassedSplits(states[i], email);
  }

  /** Reached with at most one login of the email in flight at any time. */
  ghost predicate ReachedAlone(s: State, email: Email) {
    exists states, steps ::
      IsRun(states, steps) && Init(states[0]) && states[|steps|] == s && OneAtATime(states, email)
  }

  lemma RunExtends(states: seq<State>, steps: seq<Step>, step: Step)
    requires IsRun(states, steps) && Enabled(states[|steps|], step)
    ensures IsRun(states + [Apply(states[|steps|], step)], steps + [step])
  {}

  lemma ReachesNext(s: State, step: Step, email: Email)
    requires ReachedAlone(s, email) && Enabled(s, step) && |InFlight(Apply(s, step), email)| <= 1
    ensures ReachedAlone(Apply(s, step), email)
  {
    var states, steps :|
      IsRun(states, steps) && Init(states[0]) && states[|steps|] == s && OneAtATime(states, email);
    RunExtends(states, steps, step);
    var longer := states + [Apply(s, step)];
    assert longer[0] == states[0] && longer[|steps + [step]|] == Apply(s, step) && OneAtATime(longer, email);
  }

  lemma ReachesFinish(s: State, o: OpId, email: Email)
    requires ReachedAlone(s, email) && In(s, o, Expiring) && s.ops == map[o := Attempt(email, Expiring)]
    ensures ReachedAlone(Apply(s, RunExpire(o)), email)
  {
    assert InFlight(Apply(s, RunExpire(o)), email) == {};
    ReachesNext(s, RunExpire(o), email);
  }

  lemma OneWrongPassword(s: State, email: Email) returns (t: State)
    requires ReachedAlone(s, email) && s.ops == map[] && !Locked(s.db, email)
    ensures ReachedAlone(t, email) && t.ops == map[0 := Attempt(email, Expiring)]
    ensures t.db == Incr(s.db, LockoutKey(email))
  {
    t := s;
    var steps, phases := [Begin(0, email), Check(0), WrongPassword(0)], [Checking, Verifying, Expiring];
    for i := 0 to 3
      invariant ReachedAlone(t, email)
      invariant t.ops == if i == 0 then map[] else map[0 := Attempt(email, phases[i - 1])]
      invariant t.db == if i < 3 then s.db else Incr(s.db, LockoutKey(email))
    {
      assert InFlight(Apply(t, steps[i]), email) == {0};
      ReachesNext(t, steps[i], email);
      t := Apply(t, steps[i]);
    }
  }

  /** Nine failures at time 0. */
  lemma NineFailures(email: Email) returns (s: State)
    ensures ReachedAlone(s, email) && s.ops == map[] && s.db.now == 0
    ensures LockoutKey(email) in s.db.counters && s.db.counters[LockoutKey(email)] == Counter(9, Some(900))
  {
    s := State(EMPTY_DB, map[]);
    var none: seq<Step> := [];
    assert InFlight(s, email) == {};
    assert IsRun([s], none) && [s][|none|] == s;
    for n := 0 to 9
      invariant ReachedAlone(s, email) && s.ops == map[] && s.db.now == 0
      invariant n == 0 ==> LockoutKey(email) !in s.db.counters
      invariant n > 0 ==>
        LockoutKey(email) in s.db.counters && s.db.counters[LockoutKey(email)] == Counter(n, Some(900))
    {
      var t := OneWrongPassword(s, email);
      ReachesFinish(t, 0, email);
      s := Apply(t, RunExpire(0));
    }
  }

  /** The exception is real: the tenth failure makes the count ten while its login is
      still unfinished. */
  lemma UnfinishedWouldCountTwice(email: Email) returns (s: State)
    ensures ReachedAlone(s, email)
    ensures Count(s.db, LockoutKey(email)) + |Passed(s, email)| == 11 > 9 + 1
  {
    var nine := NineFailures(email);
    s := OneWrongPassword(nine, email);
    assert Passed(s, email) == {0};
  }

  /** Ten failures can leave no lock: the deadline set by the ninth passes between the
      INCR and the EXPIRE of the tenth, and EXPIRE finds no key. The email is locked
      for one second and then free, with a count of zero. */
  lemma LockLostBeforeExpire(email: Email) returns (s: State, t: State)
    ensures ReachedAlone(s, email) && In(s, 0, Expiring) && Locked(s.db, email)
    ensures Count(s.db, LockoutKey(email)) == 10 && s.db.now == 899
    ensures t == Apply(Apply(s, Wait(1)), RunExpire(0)) && ReachedAlone(t, email)
    ensures t.ops == map[] && Count(t.db, LockoutKey(email)) == 0 && !Locked(t.db, email)
  {
    var nine := NineFailures(email);
    var late := Apply(nine, Wait(899));
    assert InFlight(late, email) == {};
    ReachesNext(nine, Wait(899), email);
    s := OneWrongPassword(late, email);
    var lapsed := Apply(s, Wait(1));
    assert InFlight(lapsed, email) == {0};
    ReachesNext(s, Wait(1), email);
    ReachesFinish(lapsed, 0, email);
    t := Apply(lapsed, RunExpire(0));
  }

  // --- When a lock ends ---

  /** No login of this email has passed `is_locked`. */
  ghost predicate NonePassed(s: State, email: Email) {
    forall o :: o in s.ops && s.ops[o].email == email ==> s.ops[o].phase == Checking
  }

  ghost predicate LockedUntil(s: State, email: Email, t: int) {
    var key := LockoutKey(email);
    NonePassed(s, email) && key in s.db.counters && s.db.counters[key].deadline == Some(t) &&
    s.db.counters[key].count >= LOCKOUT_MAX
  }

  lemma LockedUntilStep(s: State, step: Step, email: Email, t: int)
    requires Enabled(s, step) && LockedUntil(s, email, t) && s.db.now < t
    ensures LockedUntil(Apply(s, step), email, t)
  {}

  /** A lock with no login past its check ends exactly at its deadline: it holds in
      every state before, and is gone in the first state that is not before. */
  lemma {:induction false} LockEndsAtDeadline(states: seq<State>, steps: seq<Step>, email: Email, t: int, i: nat)
    requires IsRun(states, steps) && i < |states| && LockedUntil(states[0], email, t)
    requires forall m :: 0 <= m < i ==> states[m].db.now < t
    ensures LockedUntil(states[i], email, t)
    ensures Locked(states[i].db, email) <==> states[i].db.now < t
  {
    if i > 0 {
      LockEndsAtDeadline(states, steps, email, t, i - 1);
      LockedUntilStep(states[i - 1], steps[i - 1], email, t);
    }
  }

  /** The one login in flight has recorded the tenth failure and not yet set its expiry;
      the counter still has the deadline `d` of the ninth. */
  ghost predicate TenthRecorded(s: State, email: Email, o: OpId, d: int) {
    var key := LockoutKey(email);
    InFlight(s, email) == {o} && In(s, o, Expiring) &&
    key in s.db.counters && s.db.counters[key] == Counter(10, Some(d))
  }

  lemma OnlyOne(s: State, email: Email, o: OpId)
    requires |InFlight(s, email)| <= 1 && o in InFlight(s, email)
    ensures InFlight(s, email) == {o}
  {
    forall p | p in InFlight(s, email) ensures p == o {
      SubsetSize({o, p}, InFlight(s, email));
    }
  }

  /** A tenth failure finds nine of them live, under a deadline that is yet to come. */
  lemma TenthFailureCounts(states: seq<State>, steps: seq<Step>, email: Email, o: OpId, a: nat)
    requires IsRun(states, steps) && Init(states[0]) && a < |steps| && OneAtATime(states, email)
    requires steps[a] == WrongPassword(o) && states[a].ops[o].email == email
    requires Count(states[a].db, LockoutKey(email)) >= 9
    ensures LiveCounter(states[a].db, LockoutKey(email))
    ensures var deadline := states[a].db.counters[LockoutKey(email)].deadline;
            deadline.Some? && TenthRecorded(states[a + 1], email, o, deadline.value)
  {
    var s := states[a];
    FailuresBounded(states, steps, email, 1, a);
    assert {o} <= Pending(s, email);
    SubsetSize({o}, Pending(s, email));
    NoStuckLockout(states, steps, a, email);
    OnlyOne(s, email, o);
    assert forall p :: In(s, p, Expiring) && s.ops[p].email == email ==> p in InFlight(s, email);
    assert states[a + 1] == Apply(s, steps[a]);
    assert InFlight(states[a + 1], email) == {o};
  }

  lemma TenthRecordedStep(s: State, step: Step, email: Email, o: OpId, d: int)
    requires Enabled(s, step) && TenthRecorded(s, email, o, d) && step != RunExpire(o)
    requires |InFlight(Apply(s, step), email)| <= 1
    ensures TenthRecorded(Apply(s, step), email, o, d)
  {
    var t := Apply(s, step);
    forall p | p in s.ops && s.ops[p].email == email ensures p == o {
      assert p in InFlight(s, email);
    }
    assert o in InFlight(s, email) && o in InFlight(t, email);
    OnlyOne(t, email, o);
  }

  /** Login `o` takes no step from `a` to `j`. */
  ghost predicate WaitsBetween(steps: seq<Step>, o: OpId, a: nat, j: nat) {
    forall m :: a < m < j && m < |steps| ==> steps[m] != RunExpire(o)
  }

  lemma {:induction false} TenthRecordedUntil(states: seq<State>, steps: seq<Step>, email: Email, o: OpId, d: int,
                                              a: nat, j: nat)
    requires IsRun(states, steps) && a < j < |states| && OneAtATime(states, email)
    requires TenthRecorded(states[a + 1], email, o, d) && WaitsBetween(steps, o, a, j)
    ensures TenthRecorded(states[j], email, o, d)
  {
    if j > a + 1 {
      TenthRecordedUntil(states, steps, email, o, d, a, j - 1);
      assert states[j] == Apply(states[j - 1], steps[j - 1]);
      TenthRecordedStep(states[j - 1], steps[j - 1], email, o, d);
    }
  }

  lemma ExpireMeetsDeadline(s: State, email: Email, o: OpId, d: int)
    requires TenthRecorded(s, email, o, d)
    ensures var t := Apply(s, RunExpire(o));
            if s.db.now < d then LockedUntil(t, email, s.db.now + 900) && Count(t.db, LockoutKey(email)) == 10
            else Count(t.db, LockoutKey(email)) == 0
  {
    forall p | p in s.ops && s.ops[p].email == email ensures p == o {
      assert p in InFlight(s, email);
    }
  }

  /** With one login at a time, let the tenth failure run INCR at step `a` and EXPIRE at
      step `j`, while the deadline of the ninth is `d`. From the INCR on the email is
      locked while `d` is to come. If EXPIRE runs before `d`, the email is locked from
      then on for exactly 900 seconds; otherwise the key is gone, and all ten failures
      with it. */
  lemma TenthFailureLocksFor900(states: seq<State>, steps: seq<Step>, email: Email, o: OpId, a: nat, j: nat, i: nat)
    requires IsRun(states, steps) && Init(states[0]) && a < j < i < |states| && OneAtATime(states, email)
    requires steps[a] == WrongPassword(o) && states[a].ops[o].email == email
    requires Count(states[a].db, LockoutKey(email)) >= 9
    requires steps[j] == RunExpire(o) && WaitsBetween(steps, o, a, j)
    ensures LiveCounter(states[a].db, LockoutKey(email))
    ensures states[a].db.counters[LockoutKey(email)].deadline.Some?
    ensures var d, w := states[a].db.counters[LockoutKey(email)].deadline.value, states[j].db.now;
            && (forall m :: a < m <= j ==> (Locked(states[m].db, email) <==> states[m].db.now < d))
            && (Locked(states[j + 1].db, email) <==> w < d)
            && (w >= d ==> Count(states[j + 1].db, LockoutKey(email)) == 0)
            && (w < d && (forall m :: j < m < i ==> states[m].db.now < w + 900) ==>
                  (Locked(states[i].db, email) <==> states[i].db.now < w + 900))
  {
    TenthFailureCounts(states, steps, email, o, a);
    var d, w := states[a].db.counters[LockoutKey(email)].deadline.value, states[j].db.now;
    forall m | a < m <= j ensures TenthRecorded(states[m], email, o, d) {
      TenthRecordedUntil(states, steps, email, o, d, a, m);
    }
    ExpireMeetsDeadline(states[j], email, o, d);
    assert states[j + 1] == Apply(states[j], steps[j]);
    if w < d && forall m :: j < m < i ==> states[m].db.now < w + 900 {
      LockEndsAtDeadline(states[j + 1..], steps[j + 1..], email, w + 900, i - j - 1);
    }
  }

  /** A counter without expiry has a login that is about to set one. */
  ghost predicate NoneStuck(s: State) {
    forall email :: LockoutKey(email) in s.db.counters && s.db.counters[LockoutKey(email)].deadline.None? ==>
      exists o :: In(s, o, Expiring) && s.ops[o].email == email
  }

  lemma NoneStuckStep(s: State, step: Step)
    requires Enabled(s, step) && NoneStuck(s)
    ensures NoneStuck(Apply(s, step))
  {
    var t := Apply(s, step);
    forall email | LockoutKey(email) in t.db.counters && t.db.counters[LockoutKey(email)].deadline.None?
      ensures exists o :: In(t, o, Expiring) && t.ops[o].email == email
    {
      if step.WrongPassword? && s.ops[step.op].email == email {
        assert In(t, step.op, Expiring);
      } else {
        assert LockoutKey(email) in s.db.counters && s.db.counters[LockoutKey(email)].deadline.None?;
        var o :| In(s, o, Expiring) && s.ops[o].email == email;
        assert In(t, o, Expiring);
      }
    }
  }

  /** In every state of every run; so once all logins are done, every counter expires. */
  lemma {:induction false} NoStuckLockout(states: seq<State>, steps: seq<Step>, i: nat, email: Email)
    requires IsRun(states, steps) && Init(states[0]) && i < |states|
    ensures NoneStuck(states[i])
    ensures InFlight(states[i], email) == {} && LockoutKey(email) in states[i].db.counters ==>
              states[i].db.counters[LockoutKey(email)].deadline.Some?
  {
    if i > 0 {
      NoStuckLockout(states, steps, i - 1, email);
      NoneStuckStep(states[i - 1], steps[i - 1]);
    }
    if LockoutKey(email) in states[i].db.counters && states[i].db.counters[LockoutKey(email)].deadline.None? {
      var o :| In(states[i], o, Expiring) && states[i].ops[o].email == email;
      assert o in InFlight(states[i], email);
    }
  }
}
