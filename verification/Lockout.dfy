/** `LockoutStore`: a counter of login failures whose expiry slides with each failure.
    One number and one deadline answer a question about the whole history. */
module Lockout {
  import opened Prelude
  import opened Redis

  const LOCKOUT_MAX: nat := 10
  const LOCKOUT_WINDOW: nat := 900

  predicate Locked(db: Db, email: Email) {
    Count(db, LockoutKey(email)) >= LOCKOUT_MAX
  }

  function FailureRecorded(db: Db, email: Email): Db {
    db.(counters := db.counters[LockoutKey(email) :=
                      Counter(Count(db, LockoutKey(email)) + 1, Some(db.now + LOCKOUT_WINDOW))])
  }

  function Cleared(db: Db, email: Email): Db {
    DelCounter(db, LockoutKey(email))
  }

  class LockoutStore {
    const client: Connection

    constructor (client: Connection)
      ensures this.client == client
    {
      this.client := client;
    }

    method IsLocked(email: Email) returns (locked: bool)
      ensures locked == Locked(client.db, email)
    {
      locked := Count(client.db, LockoutKey(email)) >= LOCKOUT_MAX;
    }

    method RecordFailure(email: Email) returns (count: nat)
      modifies client
      ensures client.db == FailureRecorded(old(client.db), email)
      ensures count == Count(client.db, LockoutKey(email))
    {
      count := client.Increment(LockoutKey(email));
      client.SetCounterTtl(LockoutKey(email), LOCKOUT_WINDOW);
    }

    method Clear(email: Email)
      modifies client
      ensures client.db == Cleared(old(client.db), email)
      ensures !Locked(client.db, email)
    {
      client.DeleteCounter(LockoutKey(email));
    }
  }

  // --- The history of one email ---

  datatype Event = Failure(time: int) | Clear(time: int)

  ghost predicate Chronological(log: seq<Event>, now: int) {
    && (forall i, k :: 0 <= i < k < |log| ==> log[i].time <= log[k].time)
    && (forall i :: 0 <= i < |log| ==> log[i].time <= now)
  }

  function At(db: Db, t: int): Db {
    db.(now := t)
  }

  /** The keyspace after the events of the log, each at its time. */
  function Replay(email: Email, log: seq<Event>): Db {
    if log == [] then EMPTY_DB
    else
      var e := log[|log| - 1];
      var db := At(Replay(email, log[..|log| - 1]), e.time);
      match e
      case Failure(_) => FailureRecorded(db, email)
      case Clear(_) => Cleared(db, email)
  }

  /** The last `k` events are failures, each gap between them is shorter than 900
      seconds, and so is the time since the last one. */
  ghost predicate IsStreak(log: seq<Event>, k: nat, now: int) {
    && k <= |log|
    && (forall i :: |log| - k <= i < |log| ==> log[i].Failure?)
    && (forall i :: |log| - k < i < |log| ==> log[i].time - log[i - 1].time < 900)
    && (k > 0 ==> now - log[|log| - 1].time < 900)
  }

  lemma StreakUnfolds(log: seq<Event>, k: nat, now: int)
    requires log != [] && k > 0
    ensures var init, e := log[..|log| - 1], log[|log| - 1];
            IsStreak(log, k, now) <==> e.Failure? && now - e.time < 900 && IsStreak(init, k - 1, e.time)
  {}

  /** The counter is the length of the longest streak that reaches up to now. */
  lemma {:induction false} CounterIsLongestStreak(email: Email, log: seq<Event>, now: int)
    requires Chronological(log, now)
    ensures var count := Count(At(Replay(email, log), now), LockoutKey(email));
            IsStreak(log, count, now) && forall k: nat :: IsStreak(log, k, now) ==> k <= count
  {
    if log != [] {
      var init, e := log[..|log| - 1], log[|log| - 1];
      CounterIsLongestStreak(email, init, e.time);
      var before := Count(At(Replay(email, init), e.time), LockoutKey(email));
      StreakUnfolds(log, before + 1, now);
      forall k: nat | k > 0 && IsStreak(log, k, now) ensures e.Failure? && k <= before + 1 {
        StreakUnfolds(log, k, now);
      }
    }
  }

  /** An email is locked exactly when its history ends in a streak of ten failures. */
  lemma LockedMeansStreak(email: Email, log: seq<Event>, now: int)
    requires Chronological(log, now)
    ensures Locked(At(Replay(email, log), now), email) <==>
            exists k: nat :: k >= 10 && IsStreak(log, k, now)
  {
    CounterIsLongestStreak(email, log, now);
  }
}
