/** The part of Redis the service uses. Each command is one atomic step on a
    keyspace; a key whose deadline has been reached counts as absent. */
module Redis {
  import opened Prelude

  /** `refresh:{jti}`: a string written with SET EX, so it always has a deadline. */
  datatype Session = Session(uid: Uid, expiry: int)

  /** `sessions:{uid}`: a set. SADD creates it without a deadline; EXPIRE gives it one. */
  datatype Index = Index(members: set<Jti>, deadline: Option<int>)

  /** `lockout:{email}` and `rl:{route}:{ip}`: counters. INCR creates them without a deadline. */
  datatype Counter = Counter(count: nat, deadline: Option<int>)

  datatype CounterKey = LockoutKey(email: Email) | RateKey(route: string, ip: string)

  datatype Db = Db(
    now: int,
    refresh: map<Jti, Session>,
    sessions: map<Uid, Index>,
    counters: map<CounterKey, Counter>)

  const EMPTY_DB := Db(0, map[], map[], map[])

  predicate Running(now: int, deadline: Option<int>) {
    deadline.None? || now < deadline.value
  }

  /** Whether a deadline is no earlier than `t`. */
  predicate Outlasts(deadline: Option<int>, t: int) {
    deadline.None? || t <= deadline.value
  }

  predicate LiveKey(db: Db, jti: Jti) {
    jti in db.refresh && db.now < db.refresh[jti].expiry
  }

  predicate LiveIndex(db: Db, uid: Uid) {
    uid in db.sessions && Running(db.now, db.sessions[uid].deadline)
  }

  predicate LiveCounter(db: Db, key: CounterKey) {
    key in db.counters && Running(db.now, db.counters[key].deadline)
  }

  // SMEMBERS
  function Members(db: Db, uid: Uid): set<Jti> {
    if LiveIndex(db, uid) then db.sessions[uid].members else {}
  }

  // GET on a refresh key
  function Owner(db: Db, jti: Jti): Option<Uid> {
    if LiveKey(db, jti) then Some(db.refresh[jti].uid) else None
  }

  // GET on a counter; a missing key reads as zero
  function Count(db: Db, key: CounterKey): nat {
    if LiveCounter(db, key) then db.counters[key].count else 0
  }

  function Tick(db: Db, d: nat): Db {
    db.(now := db.now + d)
  }

  // SET EX refuses a zero time to live
  function SetEx(db: Db, jti: Jti, uid: Uid, ttl: nat): Db {
    if ttl == 0 then db else db.(refresh := db.refresh[jti := Session(uid, db.now + ttl)])
  }

  function DelKey(db: Db, jti: Jti): Db {
    db.(refresh := db.refresh - {jti})
  }

  function Sadd(db: Db, uid: Uid, jti: Jti): Db {
    var deadline := if LiveIndex(db, uid) then db.sessions[uid].deadline else None;
    db.(sessions := db.sessions[uid := Index(Members(db, uid) + {jti}, deadline)])
  }

  // a set that loses its last member vanishes
  function Srem(db: Db, uid: Uid, jti: Jti): Db {
    if jti !in Members(db, uid) then db
    else
      var rest := Members(db, uid) - {jti};
      if rest == {} then DelIndex(db, uid)
      else db.(sessions := db.sessions[uid := Index(rest, db.sessions[uid].deadline)])
  }

  // EXPIRE does nothing on a missing key and deletes on a zero time to live
  function ExpireIndex(db: Db, uid: Uid, ttl: nat): Db {
    if !LiveIndex(db, uid) then db
    else if ttl == 0 then DelIndex(db, uid)
    else db.(sessions := db.sessions[uid := db.sessions[uid].(deadline := Some(db.now + ttl))])
  }

  function DelIndex(db: Db, uid: Uid): Db {
    db.(sessions := db.sessions - {uid})
  }

  function Incr(db: Db, key: CounterKey): Db {
    var deadline := if LiveCounter(db, key) then db.counters[key].deadline else None;
    db.(counters := db.counters[key := Counter(Count(db, key) + 1, deadline)])
  }

  function ExpireCounter(db: Db, key: CounterKey, ttl: nat): Db {
    if !LiveCounter(db, key) then db
    else if ttl == 0 then DelCounter(db, key)
    else db.(counters := db.counters[key := db.counters[key].(deadline := Some(db.now + ttl))])
  }

  function DelCounter(db: Db, key: CounterKey): Db {
    db.(counters := db.counters - {key})
  }

  /** The commands that `redis::pipe()` queues. */
  datatype Command =
    | SETEX(jti: Jti, owner: Uid, ttl: nat)
    | SADD(uid: Uid, member: Jti)
    | EXPIRE(uid: Uid, ttl: nat)
    | DELKEY(jti: Jti)
    | DELINDEX(uid: Uid)

  function Run(db: Db, cmd: Command): Db {
    match cmd
    case SETEX(jti, owner, ttl) => SetEx(db, jti, owner, ttl)
    case SADD(uid, member) => Sadd(db, uid, member)
    case EXPIRE(uid, ttl) => ExpireIndex(db, uid, ttl)
    case DELKEY(jti) => DelKey(db, jti)
    case DELINDEX(uid) => DelIndex(db, uid)
  }

  /** What a pipeline does when no other client's command falls between. */
  function RunAll(db: Db, cmds: seq<Command>): Db
    decreases |cmds|
  {
    if cmds == [] then db else RunAll(Run(db, cmds[0]), cmds[1..])
  }

  /** A pipeline reports an error when one of its commands was refused. */
  predicate Refused(cmds: seq<Command>) {
    exists i :: 0 <= i < |cmds| && cmds[i].SETEX? && cmds[i].ttl == 0
  }

  lemma {:induction false} RunAllAppend(db: Db, cmds: seq<Command>, more: seq<Command>)
    ensures RunAll(db, cmds + more) == RunAll(RunAll(db, cmds), more)
    decreases |cmds|
  {
    if cmds == [] {
      assert cmds + more == more;
    } else {
      assert (cmds + more)[0] == cmds[0] && (cmds + more)[1..] == cmds[1..] + more;
      RunAllAppend(Run(db, cmds[0]), cmds[1..], more);
    }
  }

  function DelKeys(jtis: seq<Jti>): (cmds: seq<Command>)
    ensures |cmds| == |jtis| && forall i :: 0 <= i < |jtis| ==> cmds[i] == DELKEY(jtis[i])
  {
    seq(|jtis|, i requires 0 <= i < |jtis| => DELKEY(jtis[i]))
  }

  /** A connection to the server: every client sees and changes the same keyspace. */
  class Connection {
    var db: Db

    constructor (db: Db)
      ensures this.db == db
    {
      this.db := db;
    }

    method GetDel(jti: Jti) returns (owner: Option<Uid>)
      modifies this
      ensures owner == Owner(old(db), jti)
      ensures db == if owner.Some? then DelKey(old(db), jti) else old(db)
    {
      owner := Owner(db, jti);
      if owner.Some? {
        db := DelKey(db, jti);
      }
    }

    method SRem(uid: Uid, jti: Jti)
      modifies this
      ensures db == Srem(old(db), uid, jti)
    {
      db := Srem(db, uid, jti);
    }

    /** Redis lists a set in no particular order, each member once. */
    method SMembers(uid: Uid) returns (jtis: seq<Jti>)
      ensures forall j :: j in jtis <==> j in Members(db, uid)
      ensures |jtis| == |Members(db, uid)|
    {
      var rest := Members(db, uid);
      jtis := [];
      while rest != {}
        invariant rest <= Members(db, uid)
        invariant forall j :: j in jtis <==> j in Members(db, uid) - rest
        invariant |jtis| + |rest| == |Members(db, uid)|
        decreases rest
      {
        var j :| j in rest;
        jtis, rest := jtis + [j], rest - {j};
      }
    }

    method Query(cmds: seq<Command>) returns (ok: bool)
      modifies this
      ensures db == RunAll(old(db), cmds)
      ensures ok == !Refused(cmds)
    {
      ok := true;
      for i := 0 to |cmds|
        invariant RunAll(db, cmds[i..]) == RunAll(old(db), cmds)
        invariant ok == !Refused(cmds[..i])
      {
        ok := ok && !(cmds[i].SETEX? && cmds[i].ttl == 0);
        db := Run(db, cmds[i]);
        assert cmds[i..][1..] == cmds[i + 1..];
        assert cmds[..i + 1] == cmds[..i] + [cmds[i]];
      }
      assert cmds[..|cmds|] == cmds;
    }

    method Increment(key: CounterKey) returns (count: nat)
      modifies this
      ensures db == Incr(old(db), key)
      ensures count == Count(old(db), key) + 1
    {
      db := Incr(db, key);
      count := db.counters[key].count;
    }

    method SetCounterTtl(key: CounterKey, ttl: nat)
      modifies this
      ensures db == ExpireCounter(old(db), key, ttl)
    {
      db := ExpireCounter(db, key, ttl);
    }

    method DeleteCounter(key: CounterKey)
      modifies this
      ensures db == DelCounter(old(db), key)
    {
      db := DelCounter(db, key);
    }
  }
}
