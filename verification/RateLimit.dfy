/** The per-key request limiter: a counter whose window is fixed by its first hit. */
module RateLimit {
  import opened Prelude
  import opened Redis

  const RATE_LIMIT_MAX: nat := 5
  const RATE_LIMIT_WINDOW: nat := 60

  /** The keyspace after a request has been checked. */
  function Checked(db: Db, key: CounterKey): Db {
    var count := Count(db, key) + 1;
    db.(counters := db.counters[key := Counter(count,
          if count == 1 then Some(db.now + RATE_LIMIT_WINDOW) else db.counters[key].deadline)])
  }

  /** Whether the next request is over the limit. */
  predicate Full(db: Db, key: CounterKey) {
    Count(db, key) >= RATE_LIMIT_MAX
  }

  /** Answers whether the request is over the limit. */
  method CheckRateLimit(client: Connection, route: string, ip: string) returns (limited: bool)
    modifies client
    ensures limited == Full(old(client.db), RateKey(route, ip))
    ensures client.db == Checked(old(client.db), RateKey(route, ip))
  {
    var key := RateKey(route, ip);
    var count := client.Increment(key);
    if count == 1 {
      client.SetCounterTtl(key, RATE_LIMIT_WINDOW);
    }
    limited := count > RATE_LIMIT_MAX;
  }

  // --- The history of one key, one request after the other ---

  ghost predicate Increasing(log: seq<int>, now: int) {
    && (forall i, k :: 0 <= i < k < |log| ==> log[i] <= log[k])
    && (forall i :: 0 <= i < |log| ==> log[i] <= now)
  }

  function At(db: Db, t: int): Db {
    db.(now := t)
  }

  /** The keyspace after requests at the times of the log. */
  function Replay(key: CounterKey, log: seq<int>): Db {
    if log == [] then EMPTY_DB
    else Checked(At(Replay(key, log[..|log| - 1]), log[|log| - 1]), key)
  }

  /** Which request opened the last window: the first one, and then each that comes 60
      seconds or more after the one before it that did. */
  function Opener(log: seq<int>): (o: nat)
    requires log != []
    ensures o < |log|
  {
    if |log| == 1 then 0
    else
      var o := Opener(log[..|log| - 1]);
      if log[|log| - 1] - log[o] >= 60 then |log| - 1 else o
  }

  /** The counter is the number of requests in the window that is open now. */
  lemma {:induction false} CounterIsWindow(key: CounterKey, log: seq<int>, now: int)
    requires Increasing(log, now)
    ensures Count(At(Replay(key, log), now), key) ==
            if log == [] || now - log[Opener(log)] >= 60 then 0 else |log| - Opener(log)
    ensures log != [] ==> key in Replay(key, log).counters
    ensures log != [] ==>
              Replay(key, log).counters[key] == Counter(|log| - Opener(log), Some(log[Opener(log)] + 60))
  {
    if log != [] {
      CounterIsWindow(key, log[..|log| - 1], log[|log| - 1]);
    }
  }

  /** A request is turned away exactly if five came before it, since the window opened,
      and that was less than 60 seconds ago. */
  lemma LimitedExactly(key: CounterKey, log: seq<int>, now: int)
    requires Increasing(log, now)
    ensures Full(At(Replay(key, log), now), key) <==>
            log != [] && now - log[Opener(log)] < 60 && |log| - Opener(log) >= 5
  {
    CounterIsWindow(key, log, now);
  }

  // --- Requests of one key in flight, each command a step of its own ---

  type OpId = nat

  /** What INCR returned to a request, and when. */
  datatype Hit = Hit(time: int, count: nat)

  predicate Admitted(hit: Hit) {
    hit.count <= RATE_LIMIT_MAX
  }

  /** `expiring` are the requests between INCR and EXPIRE; `log` is history. */
  datatype State = State(db: Db, key: CounterKey, expiring: set<OpId>, log: seq<Hit>)

  datatype Step = Wait(d: nat) | RunIncr(op: OpId) | RunExpire(op: OpId)

  predicate Enabled(s: State, step: Step) {
    match step
    case Wait(_) => true
    case RunIncr(o) => o !in s.expiring
    case RunExpire(o) => o in s.expiring
  }

  function Apply(s: State, step: Step): State
    requires Enabled(s, step)
  {
    match step
    case Wait(d) => s.(db := Tick(s.db, d))
    case RunIncr(o) =>
      var count := Count(s.db, s.key) + 1;
      s.(db := Incr(s.db, s.key),
         log := s.log + [Hit(s.db.now, count)],
         // only the request that saw 1 goes on to set the time to live
         expiring := if count == 1 then s.expiring + {o} else s.expiring)
    case RunExpire(o) => s.(db := ExpireCounter(s.db, s.key, RATE_LIMIT_WINDOW), expiring := s.expiring - {o})
  }

  ghost predicate Init(s: State) {
    s.key !in s.db.counters && s.expiring == {} && s.log == []
  }

  ghost predicate IsRun(states: seq<State>, steps: seq<Step>) {
    && |states| == |steps| + 1
    && forall i :: 0 <= i < |steps| ==> Enabled(states[i], steps[i]) && states[i + 1] == Apply(states[i], steps[i])
  }

  /** A request whose commands run back to back does what the check promises. */
  lemma HitAlone(s: State, o: OpId)
    requires Enabled(s, RunIncr(o))
    ensures var hit := Apply(s, RunIncr(o));
            && (o in hit.expiring ==> Apply(hit, RunExpire(o)).db == Checked(s.db, s.key))
            && (o !in hit.expiring ==> hit.db == Checked(s.db, s.key))
            && (Admitted(hit.log[|s.log|]) <==> !Full(s.db, s.key))
  {}

  // --- The shape of the log ---

  ghost predicate Chronological(log: seq<Hit>) {
    forall i, k :: 0 <= i < k < |log| ==> log[i].time <= log[k].time
  }

  /** Counts go up by one from hit to hit, or start again at 1. */
  ghost predicate Windows(log: seq<Hit>) {
    && (log != [] ==> log[0].count == 1)
    && (forall i :: 0 < i < |log| ==> log[i].count == 1 || log[i].count == log[i - 1].count + 1)
    && (forall i :: 0 <= i < |log| ==> log[i].count >= 1)
  }

  ghost predicate StartsApart(log: seq<Hit>) {
    forall i, k :: 0 <= i < k < |log| && log[i].count == 1 && log[k].count == 1 ==>
      log[k].time - log[i].time >= RATE_LIMIT_WINDOW
  }

  ghost predicate LogSound(log: seq<Hit>) {
    Chronological(log) && Windows(log) && StartsApart(log)
  }

  /** The key belongs to the window of the last hit, and cannot expire sooner than a
      full window after any start. */
  ghost predicate KeySound(s: State) {
    && (s.log != [] ==> s.key in s.db.counters)
    && (s.key in s.db.counters ==>
          var c := s.db.counters[s.key];
          && s.log != [] && c.count == s.log[|s.log| - 1].count
          && (c.deadline.Some? ==> forall i :: 0 <= i < |s.log| && s.log[i].count == 1 ==>
                                     s.log[i].time + RATE_LIMIT_WINDOW <= c.deadline.value))
    && (forall i :: 0 <= i < |s.log| ==> s.log[i].time <= s.db.now)
  }

  /** A key without expiry has the request that will set one. */
  ghost predicate NoneStuck(s: State) {
    s.key in s.db.counters && s.db.counters[s.key].deadline.None? ==> s.expiring != {}
  }

  ghost predicate Invariant(s: State) {
    LogSound(s.log) && KeySound(s) && NoneStuck(s)
  }

  lemma HitKeepsLog(s: State)
    requires LogSound(s.log) && KeySound(s)
    ensures LogSound(s.log + [Hit(s.db.now, Count(s.db, s.key) + 1)])
  {}

  lemma HitKeepsKey(s: State, o: OpId)
    requires Invariant(s) && Enabled(s, RunIncr(o))
    ensures KeySound(Apply(s, RunIncr(o))) && NoneStuck(Apply(s, RunIncr(o)))
  {}

  lemma InvariantStep(s: State, step: Step)
    requires Invariant(s) && Enabled(s, step)
    ensures Invariant(Apply(s, step))
  {
    match step
    case Wait(_) =>
    case RunIncr(o) =>
      HitKeepsLog(s);
      HitKeepsKey(s, o);
    case RunExpire(_) =>
  }

  lemma {:induction false} InvariantAlong(states: seq<State>, steps: seq<Step>, i: nat)
    requires IsRun(states, steps) && Init(states[0]) && i < |states|
    ensures Invariant(states[i])
  {
    if i > 0 {
      InvariantAlong(states, steps, i - 1);
      InvariantStep(states[i - 1], steps[i - 1]);
    }
  }

  /** In every state of every run the key has an expiry or a request about to set it;
      window starts are at least 60 seconds apart. */
  lemma NoStuckLimiter(states: seq<State>, steps: seq<Step>, i: nat)
    requires IsRun(states, steps) && Init(states[0]) && i < |states|
    ensures NoneStuck(states[i]) && StartsApart(states[i].log)
  {
    InvariantAlong(states, steps, i);
  }

  /** Hits after the first leave the deadline of a running window alone. */
  lemma HitsDoNotExtend(s: State, o: OpId)
    requires Invariant(s) && Enabled(s, RunIncr(o)) && LiveCounter(s.db, s.key)
    ensures var t := Apply(s, RunIncr(o));
            t.db.counters[s.key].deadline == s.db.counters[s.key].deadline && t.expiring == s.expiring
  {}

  // --- Windows end ---

  /** EXPIRE gives the window 60 seconds more, and no more. */
  lemma ExpireEndsWindow(s: State, o: OpId, d: nat)
    requires Enabled(s, RunExpire(o)) && LiveCounter(s.db, s.key)
    ensures Count(Tick(Apply(s, RunExpire(o)).db, d), s.key) == if d < 60 then Count(s.db, s.key) else 0
  {}

  /** An EXPIRE is owed, or the key is gone by `t`. */
  ghost predicate EndsBy(s: State, t: int) {
    s.expiring != {} ||
    (s.key in s.db.counters ==> s.db.counters[s.key].deadline.Some? && s.db.counters[s.key].deadline.value <= t)
  }

  lemma EndsByStep(s: State, step: Step, t: int)
    requires Enabled(s, step) && EndsBy(s, t) && !step.RunExpire?
    ensures EndsBy(Apply(s, step), t)
  {
    if step.RunIncr? && s.expiring == {} {
      assert !LiveCounter(s.db, s.key) ==> step.op in Apply(s, step).expiring;
    }
  }

  lemma {:induction false} EndsByUntil(states: seq<State>, steps: seq<Step>, j: nat, i: nat)
    requires IsRun(states, steps) && j < i < |states| && steps[j].RunExpire?
    requires forall m :: j < m < i ==> !steps[m].RunExpire?
    ensures EndsBy(states[i], states[j].db.now + 60)
  {
    assert Enabled(states[i - 1], steps[i - 1]) && states[i] == Apply(states[i - 1], steps[i - 1]);
    if i > j + 1 {
      EndsByUntil(states, steps, j, i - 1);
      EndsByStep(states[i - 1], steps[i - 1], states[j].db.now + 60);
    }
  }

  /** In every interleaving, a hit that comes 60 seconds or more after the last EXPIRE,
      with none owed, opens a new window and is admitted. */
  lemma WindowEnds(states: seq<State>, steps: seq<Step>, j: nat, i: nat)
    requires IsRun(states, steps) && j < i < |steps| && steps[j].RunExpire? && steps[i].RunIncr?
    requires forall m :: j < m < i ==> !steps[m].RunExpire?
    requires states[i].expiring == {} && states[i].db.now >= states[j].db.now + 60
    ensures |states[i + 1].log| == |states[i].log| + 1
    ensures states[i + 1].log[|states[i].log|].count == 1 && Admitted(states[i + 1].log[|states[i].log|])
  {
    EndsByUntil(states, steps, j, i);
    assert states[i + 1] == Apply(states[i], steps[i]);
  }

  // --- What the limiter admits ---

  function AdmittedIn(log: seq<Hit>, a: int, b: int): nat {
    if log == [] then 0
    else
      var h := log[|log| - 1];
      AdmittedIn(log[..|log| - 1], a, b) + if a <= h.time < b && Admitted(h) then 1 else 0
  }

  function StartsIn(log: seq<Hit>, a: int, b: int): nat {
    if log == [] then 0
    else
      var h := log[|log| - 1];
      StartsIn(log[..|log| - 1], a, b) + if a <= h.time < b && h.count == 1 then 1 else 0
  }

  /** `log[i..k]` is one whole window. */
  ghost predicate IsWindow(log: seq<Hit>, i: nat, k: nat) {
    && i < k <= |log|
    && log[i].count == 1
    && (forall m :: i < m < k ==> log[m].count != 1)
  }

  lemma {:induction false} WindowCounts(log: seq<Hit>, i: nat, k: nat, m: nat)
    requires Windows(log) && IsWindow(log, i, k) && i <= m < k
    ensures log[m].count == m - i + 1
  {
    if m > i {
      WindowCounts(log, i, k, m - 1);
    }
  }

  /** Of a window's `n` hits exactly the first five, or all if fewer, are admitted. */
  lemma FirstFiveAdmitted(states: seq<State>, steps: seq<Step>, s: nat, i: nat, k: nat, m: nat)
    requires IsRun(states, steps) && Init(states[0]) && s < |states|
    requires IsWindow(states[s].log, i, k) && i <= m < k
    ensures Admitted(states[s].log[m]) <==> m - i < 5
  {
    InvariantAlong(states, steps, s);
    WindowCounts(states[s].log, i, k, m);
  }

  lemma Prefix(log: seq<Hit>)
    requires LogSound(log) && log != []
    ensures LogSound(log[..|log| - 1])
  {}

  function Min(x: int, y: int): int {
    if x < y then x else y
  }

  /** Five for each window that starts in the interval, and five for the one open before it. */
  lemma {:induction false} AdmittedByStarts(log: seq<Hit>, a: int, b: int)
    requires LogSound(log)
    ensures AdmittedIn(log, a, b) <= 5 + 5 * StartsIn(log, a, b)
    ensures log != [] && log[|log| - 1].time < b ==>
              AdmittedIn(log, a, b) <= 5 * StartsIn(log, a, b) + Min(log[|log| - 1].count, 5)
    ensures log != [] && log[|log| - 1].time < a ==> AdmittedIn(log, a, b) == StartsIn(log, a, b) == 0
  {
    if log != [] {
      Prefix(log);
      AdmittedByStarts(log[..|log| - 1], a, b);
    }
  }

  /** Starts are a window apart, so the last of them is that far into the interval. */
  lemma {:induction false} StartsFit(log: seq<Hit>, a: int, b: int)
    requires LogSound(log) && StartsIn(log, a, b) > 0
    ensures exists k :: 0 <= k < |log| && log[k].count == 1 &&
              a + RATE_LIMIT_WINDOW * (StartsIn(log, a, b) - 1) <= log[k].time < b
  {
    var init, h := log[..|log| - 1], log[|log| - 1];
    if StartsIn(init, a, b) > 0 {
      Prefix(log);
      StartsFit(init, a, b);
      var k :| 0 <= k < |init| && init[k].count == 1 &&
        a + RATE_LIMIT_WINDOW * (StartsIn(init, a, b) - 1) <= init[k].time < b;
      assert log[k] == init[k];
    }
    assert log[|log| - 1] == h;
  }

  /** In every run, any half-open interval of `length` seconds admits at most
      `5 * (1 + ceil(length / 60))` requests. */
  lemma RateBound(states: seq<State>, steps: seq<Step>, i: nat, a: int, length: nat)
    requires IsRun(states, steps) && Init(states[0]) && i < |states|
    ensures AdmittedIn(states[i].log, a, a + length) <= 5 * (1 + (length + 59) / 60)
  {
    InvariantAlong(states, steps, i);
    AdmittedByStarts(states[i].log, a, a + length);
    if StartsIn(states[i].log, a, a + length) > 0 {
      StartsFit(states[i].log, a, a + length);
    }
  }
}
