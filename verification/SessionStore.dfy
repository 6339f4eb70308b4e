/** `TokenStore`: refresh tokens in `refresh:{jti}` and the per-user index `sessions:{uid}`.
    The two kinds of key together represent one plain map of live sessions. */
module SessionStore {
  import opened Prelude
  import opened Redis

  /** The abstraction: which refresh tokens are live, whose they are and until when. */
  function Live(db: Db): map<Jti, Session> {
    map j | j in db.refresh && LiveKey(db, j) :: db.refresh[j]
  }

  function LiveOf(db: Db, uid: Uid): set<Jti> {
    set j | j in db.refresh && LiveKey(db, j) && db.refresh[j].uid == uid
  }

  predicate Indexed(db: Db, jti: Jti)
    requires jti in db.refresh
  {
    var s := db.refresh[jti];
    s.uid in db.sessions && jti in db.sessions[s.uid].members && Outlasts(db.sessions[s.uid].deadline, s.expiry)
  }

  /** Every live token is in its owner's index, and the index outlives it. */
  ghost predicate Covered(db: Db) {
    forall j :: LiveKey(db, j) ==> Indexed(db, j)
  }

  /** A live token listed in an index belongs to that index's user. Members that
      are no longer live may stay listed. */
  ghost predicate Owned(db: Db) {
    forall u, j :: j in Members(db, u) && LiveKey(db, j) ==> db.refresh[j].uid == u
  }

  /** No live token outlives one stored now. */
  ghost predicate Bounded(db: Db) {
    forall j :: LiveKey(db, j) ==> db.refresh[j].expiry <= db.now + REFRESH_TTL
  }

  ghost predicate Consistent(db: Db) {
    Covered(db) && Owned(db) && Bounded(db)
  }

  /** The token occurs somewhere in the keyspace. A freshly generated one does not. */
  ghost predicate Mentioned(db: Db, jti: Jti) {
    jti in db.refresh || exists u :: u in db.sessions && jti in db.sessions[u].members
  }

  function Stored(db: Db, jti: Jti, uid: Uid, ttl: nat): Db {
    var deadline := db.now + ttl;
    if ttl == 0 then DelIndex(db, uid)
    else db.(
      refresh := db.refresh[jti := Session(uid, deadline)],
      sessions := db.sessions[uid := Index(Members(db, uid) + {jti}, Some(deadline))])
  }

  function Revoked(db: Db, jti: Jti): Db {
    if LiveKey(db, jti) then Srem(DelKey(db, jti), db.refresh[jti].uid, jti) else db
  }

  function AllRevoked(db: Db, uid: Uid): Db {
    var jtis := Members(db, uid);
    if jtis == {} then db else db.(refresh := db.refresh - jtis, sessions := db.sessions - {uid})
  }

  lemma {:induction false} RunDelKeys(db: Db, jtis: seq<Jti>)
    ensures RunAll(db, DelKeys(jtis)) == db.(refresh := db.refresh - set j | j in jtis)
    decreases |jtis|
  {
    if jtis == [] {
      assert db.refresh - (set j | j in jtis) == db.refresh;
    } else {
      assert DelKeys(jtis)[1..] == DelKeys(jtis[1..]);
      RunDelKeys(DelKey(db, jtis[0]), jtis[1..]);
      assert (set j | j in jtis) == {jtis[0]} + set j | j in jtis[1..];
      assert db.refresh - {jtis[0]} - (set j | j in jtis[1..]) == db.refresh - set j | j in jtis;
    }
  }

  class TokenStore {
    const client: Connection

    constructor (client: Connection)
      ensures this.client == client
    {
      this.client := client;
    }

    method StoreRefreshToken(jti: Jti, uid: Uid, ttl: nat) returns (ok: bool)
      modifies client
      ensures ok == (ttl > 0)
      ensures client.db == Stored(old(client.db), jti, uid, ttl)
    {
      var pipe := [SETEX(jti, uid, ttl), SADD(uid, jti), EXPIRE(uid, ttl)];
      assert Refused(pipe) <==> pipe[0].ttl == 0;
      ok := client.Query(pipe);
      StorePipeline(old(client.db), jti, uid, ttl);
    }

    method RevokeRefreshToken(jti: Jti) returns (owner: Option<Uid>)
      modifies client
      ensures owner == Owner(old(client.db), jti)
      ensures client.db == Revoked(old(client.db), jti)
    {
      owner := client.GetDel(jti);
      if owner.Some? {
        client.SRem(owner.value, jti);
      }
    }

    method RevokeAllSessions(uid: Uid) returns (count: nat)
      modifies client
      ensures count == |Members(old(client.db), uid)|
      ensures client.db == AllRevoked(old(client.db), uid)
    {
      var jtis := client.SMembers(uid);
      count := |jtis|;
      if count == 0 {
        return;
      }
      var pipe := [];
      for i := 0 to |jtis|
        invariant pipe == DelKeys(jtis[..i])
      {
        pipe := pipe + [DELKEY(jtis[i])];
      }
      assert jtis[..|jtis|] == jtis;
      pipe := pipe + [DELINDEX(uid)];
      var _ := client.Query(pipe);
      RunAllAppend(old(client.db), DelKeys(jtis), [DELINDEX(uid)]);
      RunDelKeys(old(client.db), jtis);
      assert (set j | j in jtis) == Members(old(client.db), uid);
    }
  }

  lemma StorePipeline(db: Db, jti: Jti, uid: Uid, ttl: nat)
    ensures RunAll(db, [SETEX(jti, uid, ttl), SADD(uid, jti), EXPIRE(uid, ttl)]) == Stored(db, jti, uid, ttl)
  {
    var pipe := [SETEX(jti, uid, ttl), SADD(uid, jti), EXPIRE(uid, ttl)];
    var db1 := Run(db, pipe[0]);
    var db2 := Run(db1, pipe[1]);
    var db3 := Run(db2, pipe[2]);
    assert pipe[1..][1..] == [pipe[2]];
    assert RunAll(db2, [pipe[2]]) == RunAll(db3, []);
    assert RunAll(db1, pipe[1..]) == RunAll(db2, pipe[1..][1..]);
    assert db3.sessions == Stored(db, jti, uid, ttl).sessions;
  }

  // --- What each operation does to the map of live sessions ---

  /** A store with a fresh token adds one session. It keeps every live token
      covered exactly when no live token of that user outlives the new one, since
      EXPIRE overwrites the deadline of the whole index. */
  lemma StoreRefines(db: Db, jti: Jti, uid: Uid, ttl: nat)
    requires Covered(db) && Owned(db) && ttl > 0 && !Mentioned(db, jti)
    ensures Live(Stored(db, jti, uid, ttl)) == Live(db)[jti := Session(uid, db.now + ttl)]
    ensures Owned(Stored(db, jti, uid, ttl))
    ensures Covered(Stored(db, jti, uid, ttl)) <==>
            forall j :: j in LiveOf(db, uid) ==> db.refresh[j].expiry <= db.now + ttl
  {
    var post := Stored(db, jti, uid, ttl);
    forall j | LiveKey(post, j) && j != jti ensures LiveKey(db, j) && post.refresh[j] == db.refresh[j] {}
    assert LiveKey(post, jti);
    forall u, j | j in Members(post, u) && LiveKey(post, j) ensures post.refresh[j].uid == u {
      assert u != uid ==> u in db.sessions && j in Members(db, u);
    }
    forall j | LiveKey(db, j)
      ensures Indexed(post, j) <==> db.refresh[j].uid != uid || db.refresh[j].expiry <= db.now + ttl
    {
      assert Indexed(db, j);
      assert j != jti && LiveKey(post, j);
    }
    if forall j :: j in LiveOf(db, uid) ==> db.refresh[j].expiry <= db.now + ttl {
      forall j | LiveKey(post, j) ensures Indexed(post, j) {}
    } else {
      var j :| j in LiveOf(db, uid) && db.refresh[j].expiry > db.now + ttl;
      assert LiveKey(post, j) && !Indexed(post, j);
    }
  }

  /** A later, shorter time to live is enough to lose a session from the index:
      the index expires, and revoking everything then finds nothing to revoke. */
  lemma ShorterTtlLosesSession()
    ensures var db := Tick(Stored(Stored(EMPTY_DB, 1, 7, 100), 2, 7, 10), 50);
            LiveKey(AllRevoked(db, 7), 1) && Members(db, 7) == {}
  {}

  lemma RevokeRefines(db: Db, jti: Jti)
    requires Consistent(db)
    ensures Live(Revoked(db, jti)) == Live(db) - {jti}
    ensures Consistent(Revoked(db, jti))
  {
    var post := Revoked(db, jti);
    if LiveKey(db, jti) {
      assert Indexed(db, jti);
      forall j | LiveKey(post, j) ensures LiveKey(db, j) && j != jti && Indexed(post, j) {
        assert Indexed(db, j);
      }
      forall u, j | j in Members(post, u) && LiveKey(post, j) ensures post.refresh[j].uid == u {
        assert j in Members(db, u);
      }
    } else {
      assert Live(db) - {jti} == Live(db);
    }
  }

  /** The loop driven by the index deletes every live token of the user and no
      one else's, and the count it reports is at least their number. */
  lemma RevokeAllRefines(db: Db, uid: Uid)
    requires Consistent(db)
    ensures Live(AllRevoked(db, uid)) == map j | j in Live(db) && Live(db)[j].uid != uid :: Live(db)[j]
    ensures |LiveOf(db, uid)| <= |Members(db, uid)|
    ensures Consistent(AllRevoked(db, uid))
  {
    var post := AllRevoked(db, uid);
    forall j | j in LiveOf(db, uid) ensures j in Members(db, uid) {
      assert Indexed(db, j);
    }
    SubsetSize(LiveOf(db, uid), Members(db, uid));
    forall j | LiveKey(post, j) ensures LiveKey(db, j) && Indexed(post, j) && db.refresh[j].uid != uid {
      assert Indexed(db, j);
    }
    forall j | LiveKey(db, j) && db.refresh[j].uid != uid ensures j in post.refresh {}
    forall u, j | j in Members(post, u) && LiveKey(post, j) ensures post.refresh[j].uid == u {
      assert j in Members(db, u);
    }
  }

  /** On any keyspace at all, revoking everything ends the user's sessions
      exactly when the index lists them all. */
  lemma RevokeAllCompleteExactly(db: Db, uid: Uid)
    ensures LiveOf(AllRevoked(db, uid), uid) == {} <==> LiveOf(db, uid) <= Members(db, uid)
  {
    var post := AllRevoked(db, uid);
    assert LiveOf(post, uid) == LiveOf(db, uid) - Members(db, uid);
    if LiveOf(post, uid) == {} {
      forall j | j in LiveOf(db, uid) ensures j in Members(db, uid) {
        assert j !in LiveOf(post, uid);
      }
    }
  }

  lemma TickRefines(db: Db, d: nat)
    requires Consistent(db)
    ensures Live(Tick(db, d)) == map j | j in Live(db) && db.now + d < Live(db)[j].expiry :: Live(db)[j]
    ensures Consistent(Tick(db, d))
  {
    forall j | LiveKey(Tick(db, d), j) ensures LiveKey(db, j) && Indexed(Tick(db, d), j) {
      assert LiveKey(db, j) && Indexed(db, j);
    }
    forall u, j | j in Members(Tick(db, d), u) ensures j in Members(db, u) {}
  }

  // --- Whole runs ---

  datatype Call = Store(jti: Jti, uid: Uid) | Revoke(jti: Jti) | RevokeAll(uid: Uid) | Elapse(d: nat)

  function Do(db: Db, call: Call): Db {
    match call
    case Store(jti, uid) => Stored(db, jti, uid, REFRESH_TTL)
    case Revoke(jti) => Revoked(db, jti)
    case RevokeAll(uid) => AllRevoked(db, uid)
    case Elapse(d) => Tick(db, d)
  }

  function DoAll(db: Db, calls: seq<Call>): Db {
    if calls == [] then db else Do(DoAll(db, calls[..|calls| - 1]), calls[|calls| - 1])
  }

  /** The plain form: a clock and a map. */
  datatype Plain = Plain(now: int, live: map<Jti, Session>)

  function PlainDo(p: Plain, call: Call): Plain {
    match call
    case Store(jti, uid) => p.(live := p.live[jti := Session(uid, p.now + REFRESH_TTL)])
    case Revoke(jti) => p.(live := p.live - {jti})
    case RevokeAll(uid) => p.(live := map j | j in p.live && p.live[j].uid != uid :: p.live[j])
    case Elapse(d) => Plain(p.now + d, map j | j in p.live && p.now + d < p.live[j].expiry :: p.live[j])
  }

  function PlainDoAll(p: Plain, calls: seq<Call>): Plain {
    if calls == [] then p else PlainDo(PlainDoAll(p, calls[..|calls| - 1]), calls[|calls| - 1])
  }

  /** Generated tokens: each store uses one that occurs nowhere else. */
  ghost predicate FreshStores(db: Db, calls: seq<Call>) {
    && (forall i :: 0 <= i < |calls| && calls[i].Store? ==> !Mentioned(db, calls[i].jti))
    && (forall i, k :: 0 <= i < k < |calls| && calls[i].Store? && calls[k].Store? ==> calls[i].jti != calls[k].jti)
  }

  lemma OnlyStoresMention(db: Db, call: Call, jti: Jti)
    requires Mentioned(Do(db, call), jti)
    ensures Mentioned(db, jti) || (call.Store? && call.jti == jti)
  {}

  lemma {:induction false} StaysUnmentioned(db: Db, calls: seq<Call>, jti: Jti)
    requires !Mentioned(db, jti)
    requires forall i :: 0 <= i < |calls| && calls[i].Store? ==> calls[i].jti != jti
    ensures !Mentioned(DoAll(db, calls), jti)
  {
    if calls != [] {
      var init := calls[..|calls| - 1];
      StaysUnmentioned(db, init, jti);
      if Mentioned(DoAll(db, calls), jti) {
        OnlyStoresMention(DoAll(db, init), calls[|calls| - 1], jti);
      }
    }
  }

  function View(db: Db): Plain {
    Plain(db.now, Live(db))
  }

  lemma CallRefines(db: Db, call: Call)
    requires Consistent(db) && (call.Store? ==> !Mentioned(db, call.jti))
    ensures Consistent(Do(db, call)) && View(Do(db, call)) == PlainDo(View(db), call)
  {
    match call
    case Store(jti, uid) =>
      StoreRefines(db, jti, uid, REFRESH_TTL);
      StoreKeepsBound(db, jti, uid);
    case Revoke(jti) => RevokeRefines(db, jti);
    case RevokeAll(uid) => RevokeAllRefines(db, uid);
    case Elapse(d) => TickRefines(db, d);
  }

  /** In every run with fresh tokens, the two kinds of Redis key behave as the plain map. */
  lemma {:induction false} Simulation(db: Db, calls: seq<Call>)
    requires Consistent(db) && FreshStores(db, calls)
    ensures Consistent(DoAll(db, calls))
    ensures View(DoAll(db, calls)) == PlainDoAll(View(db), calls)
  {
    if calls != [] {
      var init, call := calls[..|calls| - 1], calls[|calls| - 1];
      Simulation(db, init);
      if call.Store? {
        StaysUnmentioned(db, init, call.jti);
      }
      CallRefines(DoAll(db, init), call);
    }
  }

  lemma StoreKeepsBound(db: Db, jti: Jti, uid: Uid)
    requires Bounded(db)
    ensures Bounded(Stored(db, jti, uid, REFRESH_TTL))
  {}

  // --- Revoking one by one ---

  function RevokedEach(db: Db, jtis: seq<Jti>): Db
    decreases |jtis|
  {
    if jtis == [] then db else RevokedEach(Revoked(db, jtis[0]), jtis[1..])
  }

  lemma {:induction false} RevokeEachRefines(db: Db, jtis: seq<Jti>)
    requires Consistent(db)
    ensures Live(RevokedEach(db, jtis)) == Live(db) - set j | j in jtis
    decreases |jtis|
  {
    if jtis == [] {
      assert Live(db) - (set j | j in jtis) == Live(db);
    } else {
      RevokeRefines(db, jtis[0]);
      RevokeEachRefines(Revoked(db, jtis[0]), jtis[1..]);
      assert (set j | j in jtis) == {jtis[0]} + set j | j in jtis[1..];
      assert Live(db) - {jtis[0]} - (set j | j in jtis[1..]) == Live(db) - set j | j in jtis;
    }
  }

  /** Revoking all is revoking each live token of the user, in any order. */
  lemma RevokeAllIsFold(db: Db, uid: Uid, order: seq<Jti>)
    requires Consistent(db)
    requires forall j :: j in order <==> j in LiveOf(db, uid)
    ensures Live(RevokedEach(db, order)) == Live(AllRevoked(db, uid))
  {
    RevokeEachRefines(db, order);
    RevokeAllRefines(db, uid);
    assert (set j | j in order) == LiveOf(db, uid);
  }

  /** SREM touches one index and acts on it by its member set alone. */
  lemma SremTwice(db: Db, u: Uid, j: Jti, k: Jti)
    ensures var rest := Members(db, u) - {j, k};
            Srem(Srem(db, u, j), u, k) ==
            if rest == Members(db, u) then db
            else if rest == {} then DelIndex(db, u)
            else db.(sessions := db.sessions[u := Index(rest, db.sessions[u].deadline)])
  {
    var mid := Srem(db, u, j);
    assert Members(mid, u) == Members(db, u) - {j};
    var rest := Members(mid, u) - {k};
    assert rest == Members(db, u) - {j, k};
    if j in Members(db, u) && k in Members(mid, u) {
      assert Srem(mid, u, k).sessions ==
             if rest == {} then db.sessions - {u} else db.sessions[u := Index(rest, db.sessions[u].deadline)];
    } else {
      assert j !in Members(db, u) ==> mid == db && rest == Members(db, u) - {k};
      assert k !in Members(mid, u) ==> Srem(mid, u, k) == mid && rest == Members(db, u) - {j};
    }
  }

  function Put(sessions: map<Uid, Index>, u: Uid, slot: Option<Index>): map<Uid, Index> {
    if slot.None? then sessions - {u} else sessions[u := slot.value]
  }

  function SlotAfterSrem(db: Db, u: Uid, j: Jti): Option<Index> {
    var s := Srem(db, u, j).sessions;
    if u in s then Some(s[u]) else None
  }

  lemma SremPuts(db: Db, u: Uid, j: Jti)
    ensures Srem(db, u, j).sessions == Put(db.sessions, u, SlotAfterSrem(db, u, j))
  {}

  lemma SremCommutesApart(db: Db, u: Uid, j: Jti, v: Uid, k: Jti)
    requires u != v
    ensures Srem(Srem(db, u, j), v, k).sessions == Srem(Srem(db, v, k), u, j).sessions
  {
    SremPuts(db, u, j);
    SremPuts(db, v, k);
    SremPuts(Srem(db, u, j), v, k);
    SremPuts(Srem(db, v, k), u, j);
    assert SlotAfterSrem(Srem(db, u, j), v, k) == SlotAfterSrem(db, v, k);
    assert SlotAfterSrem(Srem(db, v, k), u, j) == SlotAfterSrem(db, u, j);
    PutCommutes(db.sessions, u, SlotAfterSrem(db, u, j), v, SlotAfterSrem(db, v, k));
  }

  lemma PutCommutes(m: map<Uid, Index>, u: Uid, a: Option<Index>, v: Uid, b: Option<Index>)
    requires u != v
    ensures Put(Put(m, u, a), v, b) == Put(Put(m, v, b), u, a)
  {}

  lemma SremCommutes(db: Db, u: Uid, j: Jti, v: Uid, k: Jti)
    ensures Srem(Srem(db, u, j), v, k) == Srem(Srem(db, v, k), u, j)
  {
    if u == v {
      SremTwice(db, u, j, k);
      SremTwice(db, u, k, j);
      assert {j, k} == {k, j};
    } else {
      SremCommutesApart(db, u, j, v, k);
    }
  }

  lemma RevokedUnfolds(db: Db, j: Jti, k: Jti)
    requires j != k && LiveKey(db, j) && LiveKey(db, k)
    ensures Revoked(Revoked(db, j), k) ==
            Srem(Srem(db.(refresh := db.refresh - {j} - {k}), db.refresh[j].uid, j), db.refresh[k].uid, k)
  {}

  /** On the whole keyspace, indexes included. */
  lemma RevokeIdempotentAndCommutes(db: Db, j: Jti, k: Jti)
    ensures Revoked(Revoked(db, j), j) == Revoked(db, j)
    ensures Revoked(Revoked(db, j), k) == Revoked(Revoked(db, k), j)
  {
    if j != k && LiveKey(db, j) && LiveKey(db, k) {
      RevokedUnfolds(db, j, k);
      RevokedUnfolds(db, k, j);
      assert db.refresh - {j} - {k} == db.refresh - {k} - {j};
      SremCommutes(db.(refresh := db.refresh - {j} - {k}), db.refresh[j].uid, j, db.refresh[k].uid, k);
    }
  }
}
