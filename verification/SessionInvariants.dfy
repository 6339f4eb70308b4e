/** What every command of every interleaving keeps. The parts of the invariant take
    only the fields they speak of, and so do the lemmas that preserve them;
    `SessionSteps` puts them together for each kind of step. */
module SessionInvariants {
  import opened Prelude
  import opened Redis
  import opened SessionStore
  import opened Jwt
  import opened SessionMachine

  type Keys = map<Jti, Session>
  type Logins = map<Family, Login>
  type FamilyMap = map<Jti, Family>

  // --- Provenance: where tokens, keys and members come from ---

  ghost predicate IssuedSound(issued: Issued, now: int) {
    forall j :: j in issued ==>
      issued[j].jti == j && issued[j].exp == issued[j].iat + Ttl(issued[j].kind) && issued[j].iat <= now
  }

  ghost predicate StoredSound(issued: Issued, stored: Keys, now: int) {
    forall j :: j in stored ==>
      && j in issued && issued[j].kind == Refresh && issued[j].sub == stored[j].uid
      && issued[j].iat + REFRESH_TTL <= stored[j].expiry <= now + REFRESH_TTL
  }

  /** A key or an index member exists only for a token that was stored for that user. */
  ghost predicate KeysSound(refresh: Keys, stored: Keys) {
    forall j :: j in refresh ==> j in stored && stored[j] == refresh[j]
  }

  ghost predicate MembersSound(sessions: map<Uid, Index>, stored: Keys) {
    forall u, j :: u in sessions && j in sessions[u].members ==> j in stored && stored[j].uid == u
  }

  ghost predicate OpSound(issued: Issued, stored: Keys, refresh: Keys, op: Op) {
    match op
    case Storing(stage, family, sub, jti) =>
      jti in issued && issued[jti].kind == Refresh && issued[jti].sub == sub && (stage == ToSet <==> jti !in stored)
    case Consuming(claims, purpose) => Genuine(issued, claims) && claims.kind == Refresh
    case Unlisting(claims, purpose, owner) =>
      Genuine(issued, claims) && claims.sub == owner && claims.jti in stored && claims.jti !in refresh
    case Deleting(uid, rest) => forall j :: j in rest ==> j in stored && stored[j].uid == uid
    case _ => true
  }

  ghost predicate OpsSound(issued: Issued, stored: Keys, refresh: Keys, ops: Ops) {
    forall o :: o in ops ==> OpSound(issued, stored, refresh, ops[o])
  }

  ghost predicate StoresApart(ops: Ops) {
    forall o, p :: o in ops && p in ops && ops[o].Storing? && ops[p].Storing? && o != p ==> ops[o].jti != ops[p].jti
  }

  ghost predicate Provenance(s: State) {
    && IssuedSound(s.issued, s.db.now)
    && StoredSound(s.issued, s.stored, s.db.now)
    && KeysSound(s.db.refresh, s.stored)
    && MembersSound(s.db.sessions, s.stored)
    && OpsSound(s.issued, s.stored, s.db.refresh, s.ops)
    && StoresApart(s.ops)
  }

  lemma IssueKeepsOps(issued: Issued, claims: Claims, stored: Keys, refresh: Keys, ops: Ops)
    requires OpsSound(issued, stored, refresh, ops) && claims.jti !in issued
    ensures OpsSound(issued[claims.jti := claims], stored, refresh, ops)
  {}

  lemma ActKeepsOps(issued: Issued, stored: Keys, refresh: Keys, ops: Ops, o: OpId, op: Op)
    requires OpsSound(issued, stored, refresh, ops) && OpSound(issued, stored, refresh, op)
    ensures OpsSound(issued, stored, refresh, ops[o := op])
  {}

  lemma ActKeepsApart(ops: Ops, o: OpId, op: Op)
    requires StoresApart(ops)
    requires op.Storing? ==> forall p :: p in ops && p != o && ops[p].Storing? ==> ops[p].jti != op.jti
    ensures StoresApart(ops[o := op])
  {}

  lemma SaddKeepsMembers(db: Db, stored: Keys, uid: Uid, jti: Jti)
    requires MembersSound(db.sessions, stored) && jti in stored && stored[jti].uid == uid
    ensures MembersSound(Sadd(db, uid, jti).sessions, stored)
  {}

  lemma SremKeepsMembers(db: Db, stored: Keys, uid: Uid, jti: Jti)
    requires MembersSound(db.sessions, stored)
    ensures MembersSound(Srem(db, uid, jti).sessions, stored)
  {}

  lemma ExpireKeepsMembers(db: Db, stored: Keys, uid: Uid, ttl: nat)
    requires MembersSound(db.sessions, stored)
    ensures MembersSound(ExpireIndex(db, uid, ttl).sessions, stored)
  {}

  lemma DelIndexKeepsMembers(db: Db, stored: Keys, uid: Uid)
    requires MembersSound(db.sessions, stored)
    ensures MembersSound(DelIndex(db, uid).sessions, stored)
  {}

  lemma DelKeepsOps(issued: Issued, stored: Keys, refresh: Keys, ops: Ops, jti: Jti)
    requires OpsSound(issued, stored, refresh, ops)
    ensures OpsSound(issued, stored, refresh - {jti}, ops)
  {}

  lemma SetKeepsOps(issued: Issued, stored: Keys, refresh: Keys, ops: Ops, o: OpId, session: Session)
    requires OpsSound(issued, stored, refresh, ops) && StoresApart(ops)
    requires o in ops && ops[o].Storing? && ops[o].stage == ToSet
    ensures var jti := ops[o].jti;
            OpsSound(issued, stored[jti := session], refresh[jti := session], ops[o := ops[o].(stage := ToAdd)])
  {}

  // --- The ledger: what became of every stored token ---

  ghost predicate WasRemoved(removed: seq<Removal>, jti: Jti) {
    exists i :: 0 <= i < |removed| && removed[i].jti == jti
  }

  ghost predicate RemovedOnce(removed: seq<Removal>, stored: Keys, refresh: Keys) {
    && (forall i :: 0 <= i < |removed| ==> removed[i].jti in stored && removed[i].jti !in refresh)
    && (forall i, k :: 0 <= i < k < |removed| ==> removed[i].jti != removed[k].jti)
  }

  ghost predicate Accounted(removed: seq<Removal>, stored: Keys, refresh: Keys, now: int) {
    forall j :: j in stored && j !in refresh ==> WasRemoved(removed, j) || stored[j].expiry <= now
  }

  ghost predicate Ledger(s: State) {
    && RemovedOnce(s.removed, s.stored, s.db.refresh)
    && Accounted(s.removed, s.stored, s.db.refresh, s.db.now)
  }

  lemma RemoveKeepsLedger(removed: seq<Removal>, stored: Keys, refresh: Keys, now: int, jti: Jti, how: How)
    requires RemovedOnce(removed, stored, refresh) && Accounted(removed, stored, refresh, now)
    requires KeysSound(refresh, stored) && jti in refresh
    ensures RemovedOnce(removed + [Removal(jti, how)], stored, refresh - {jti})
    ensures Accounted(removed + [Removal(jti, how)], stored, refresh - {jti}, now)
  {
    var more := removed + [Removal(jti, how)];
    assert more[|removed|].jti == jti;
    forall j | j in stored && j !in refresh - {jti} ensures WasRemoved(more, j) || stored[j].expiry <= now {
      if j != jti && WasRemoved(removed, j) {
        var i :| 0 <= i < |removed| && removed[i].jti == j;
        assert more[i].jti == j;
      }
    }
  }

  lemma SetKeepsRecords(issued: Issued, stored: Keys, db: Db, removed: seq<Removal>, jti: Jti, session: Session)
    requires StoredSound(issued, stored, db.now) && KeysSound(db.refresh, stored) && MembersSound(db.sessions, stored)
    requires RemovedOnce(removed, stored, db.refresh) && Accounted(removed, stored, db.refresh, db.now)
    requires jti !in stored && jti in issued && issued[jti].kind == Refresh && issued[jti].sub == session.uid
    requires issued[jti].iat <= db.now && session.expiry == db.now + REFRESH_TTL
    ensures var stored', refresh' := stored[jti := session], db.refresh[jti := session];
            && StoredSound(issued, stored', db.now) && KeysSound(refresh', stored')
            && MembersSound(db.sessions, stored')
            && RemovedOnce(removed, stored', refresh') && Accounted(removed, stored', refresh', db.now)
  {}

  // --- Families: claims are constant back to the login ---

  ghost predicate Carries(families: Logins, family: Family, sub: Uid, email: Email) {
    family in families && families[family] == Login(sub, email)
  }

  ghost predicate OpInFamily(families: Logins, familyOf: FamilyMap, op: Op) {
    match op
    case SigningAccess(family, sub, email) => Carries(families, family, sub, email)
    case SigningRefresh(family, sub, email) => Carries(families, family, sub, email)
    case Storing(_, family, sub, jti) => jti in familyOf && familyOf[jti] == family
    case _ => true
  }

  ghost predicate ClaimsConstant(issued: Issued, families: Logins, familyOf: FamilyMap) {
    && familyOf.Keys == issued.Keys
    && (forall j :: j in issued ==> Carries(families, familyOf[j], issued[j].sub, issued[j].email))
  }

  ghost predicate OpsInFamily(families: Logins, familyOf: FamilyMap, ops: Ops) {
    forall o :: o in ops ==> OpInFamily(families, familyOf, ops[o])
  }

  lemma ActKeepsFamilies(families: Logins, familyOf: FamilyMap, ops: Ops, o: OpId, op: Op)
    requires OpsInFamily(families, familyOf, ops) && OpInFamily(families, familyOf, op)
    ensures OpsInFamily(families, familyOf, ops[o := op])
  {}

  ghost predicate UsersKnown(users: map<Uid, Email>, everUsers: set<Uid>, families: Logins) {
    && users.Keys <= everUsers
    && (forall f :: f in families ==> families[f].uid in everUsers)
    && (forall f :: f in families && families[f].uid in users ==> users[families[f].uid] == families[f].email)
  }

  ghost predicate Families(s: State) {
    && ClaimsConstant(s.issued, s.families, s.familyOf)
    && OpsInFamily(s.families, s.familyOf, s.ops)
    && UsersKnown(s.users, s.everUsers, s.families)
  }

  // --- Linearity: at most one continuation of a family ---

  /** The handler is going to store the family's next refresh token. */
  predicate Continues(familyOf: FamilyMap, op: Op, family: Family) {
    match op
    case SigningAccess(f, _, _) => f == family
    case SigningRefresh(f, _, _) => f == family
    case Storing(stage, f, _, _) => stage == ToSet && f == family
    case Unlisting(claims, purpose, _) => purpose == Rotate && FamilyOf(familyOf, claims.jti) == family
    case _ => false
  }

  ghost predicate OneKey(refresh: Keys, familyOf: FamilyMap) {
    forall j, k :: j in refresh && k in refresh && FamilyOf(familyOf, j) == FamilyOf(familyOf, k) ==> j == k
  }

  ghost predicate OneContinuer(ops: Ops, familyOf: FamilyMap) {
    forall o, p, f :: o in ops && p in ops && Continues(familyOf, ops[o], f) && Continues(familyOf, ops[p], f) ==>
      o == p
  }

  ghost predicate KeyOrContinuer(refresh: Keys, ops: Ops, familyOf: FamilyMap) {
    forall j, o :: j in refresh && o in ops ==> !Continues(familyOf, ops[o], FamilyOf(familyOf, j))
  }

  ghost predicate AtMostOne(refresh: Keys, ops: Ops, familyOf: FamilyMap) {
    OneKey(refresh, familyOf) && OneContinuer(ops, familyOf) && KeyOrContinuer(refresh, ops, familyOf)
  }

  ghost predicate Linear(s: State) {
    AtMostOne(s.db.refresh, s.ops, s.familyOf)
  }

  /** A handler that goes on with the family it had, or with none, or with one that
      has neither a key nor another handler. */
  lemma ActKeepsLinear(refresh: Keys, ops: Ops, familyOf: FamilyMap, o: OpId, op: Op)
    requires AtMostOne(refresh, ops, familyOf)
    requires forall f :: Continues(familyOf, op, f) ==>
      || (o in ops && Continues(familyOf, ops[o], f))
      || ((forall j :: j in refresh ==> FamilyOf(familyOf, j) != f) &&
          (forall p :: p in ops && p != o ==> !Continues(familyOf, ops[p], f)))
    ensures AtMostOne(refresh, ops[o := op], familyOf)
  {}

  lemma FinishKeepsLinear(refresh: Keys, ops: Ops, familyOf: FamilyMap, o: OpId)
    requires AtMostOne(refresh, ops, familyOf)
    ensures AtMostOne(refresh, ops - {o}, familyOf)
  {}

  lemma DelKeepsLinear(refresh: Keys, ops: Ops, familyOf: FamilyMap, jti: Jti)
    requires AtMostOne(refresh, ops, familyOf)
    ensures AtMostOne(refresh - {jti}, ops, familyOf)
  {}

  /** Naming the family of a token that no key and no handler carries yet. */
  lemma IssueKeepsLinear(refresh: Keys, ops: Ops, familyOf: FamilyMap, jti: Jti, family: Family)
    requires AtMostOne(refresh, ops, familyOf) && jti !in familyOf
    requires jti !in refresh
    requires forall o :: o in ops && ops[o].Unlisting? ==> ops[o].claims.jti != jti
    ensures AtMostOne(refresh, ops, familyOf[jti := family])
  {
    var more := familyOf[jti := family];
    forall o, f | o in ops ensures Continues(more, ops[o], f) == Continues(familyOf, ops[o], f) {}
    forall j | j in refresh ensures FamilyOf(more, j) == FamilyOf(familyOf, j) {}
  }

  lemma SetKeepsLinear(refresh: Keys, ops: Ops, familyOf: FamilyMap, o: OpId, session: Session)
    requires AtMostOne(refresh, ops, familyOf)
    requires o in ops && ops[o].Storing? && ops[o].stage == ToSet && FamilyOf(familyOf, ops[o].jti) == ops[o].family
    ensures AtMostOne(refresh[ops[o].jti := session], ops[o := ops[o].(stage := ToAdd)], familyOf)
  {}

  // --- Coverage: the index knows every live token ---

  ghost predicate MidStore(ops: Ops, jti: Jti) {
    exists o :: o in ops && InPipeline(ops[o]) && ops[o].jti == jti
  }

  /** Live, and its store did not overlap a revoke-all of its user. */
  predicate Trusted(db: Db, overlapped: set<Jti>, jti: Jti) {
    LiveKey(db, jti) && jti !in overlapped
  }

  ghost predicate IndexCovers(db: Db, ops: Ops, overlapped: set<Jti>) {
    forall j :: Trusted(db, overlapped, j) ==> MidStore(ops, j) || Indexed(db, j)
  }

  /** A pipeline still has its full time to live ahead: the clock stood still. */
  ghost predicate OnTime(ops: Ops, stored: Keys, now: int) {
    forall o :: o in ops && InPipeline(ops[o]) ==>
      ops[o].jti in stored && stored[ops[o].jti] == Session(ops[o].sub, now + REFRESH_TTL)
  }

  lemma ActKeepsOnTime(ops: Ops, stored: Keys, now: int, o: OpId, op: Op)
    requires OnTime(ops, stored, now)
    requires InPipeline(op) ==> op.jti in stored && stored[op.jti] == Session(op.sub, now + REFRESH_TTL)
    ensures OnTime(ops[o := op], stored, now)
  {}

  lemma FinishKeepsOthers(issued: Issued, stored: Keys, refresh: Keys, families: Logins, familyOf: FamilyMap, now: int,
                          ops: Ops, o: OpId)
    requires OpsSound(issued, stored, refresh, ops) && StoresApart(ops) && OpsInFamily(families, familyOf, ops)
    requires OnTime(ops, stored, now)
    ensures OpsSound(issued, stored, refresh, ops - {o}) && StoresApart(ops - {o})
    ensures OpsInFamily(families, familyOf, ops - {o}) && OnTime(ops - {o}, stored, now)
  {}

  ghost predicate Added(db: Db, ops: Ops, overlapped: set<Jti>) {
    forall o :: o in ops && ops[o].Storing? && ops[o].stage == ToExpire && Trusted(db, overlapped, ops[o].jti) ==>
      ops[o].jti in Members(db, ops[o].sub)
  }

  ghost predicate RevokesComplete(db: Db, ops: Ops, overlapped: set<Jti>) {
    forall o, j :: o in ops && ops[o].Deleting? && Trusted(db, overlapped, j) && db.refresh[j].uid == ops[o].uid ==>
      j in ops[o].rest
  }

  ghost predicate OverlapsMarked(ops: Ops, overlapped: set<Jti>) {
    forall o, p :: o in ops && p in ops && ops[o].Deleting? && InPipeline(ops[p]) && ops[o].uid == ops[p].sub ==>
      ops[p].jti in overlapped
  }

  ghost predicate Covering(db: Db, ops: Ops, overlapped: set<Jti>) {
    && IndexCovers(db, ops, overlapped)
    && Added(db, ops, overlapped)
    && RevokesComplete(db, ops, overlapped)
    && OverlapsMarked(ops, overlapped)
  }

  ghost predicate Coverage(s: State) {
    OnTime(s.ops, s.stored, s.db.now) && Covering(s.db, s.ops, s.overlapped)
  }

  /** A handler that is neither storing nor deleting, before and after. */
  predicate Aside(op: Op) {
    !InPipeline(op) && !op.Deleting?
  }

  lemma ActAsideKeepsCovering(db: Db, ops: Ops, overlapped: set<Jti>, o: OpId, op: Op)
    requires Covering(db, ops, overlapped)
    requires (o in ops ==> Aside(ops[o])) && Aside(op)
    ensures Covering(db, ops[o := op], overlapped)
  {
    var after := ops[o := op];
    forall p | p in after && p != o ensures p in ops && after[p] == ops[p] {}
    forall j | MidStore(ops, j) ensures MidStore(after, j) {
      var p :| p in ops && InPipeline(ops[p]) && ops[p].jti == j;
      assert p in after && after[p] == ops[p];
    }
  }

  lemma FinishAsideKeepsCovering(db: Db, ops: Ops, overlapped: set<Jti>, o: OpId)
    requires Covering(db, ops, overlapped)
    requires o in ops ==> Aside(ops[o])
    ensures Covering(db, ops - {o}, overlapped)
  {
    var after := ops - {o};
    forall p | p in after ensures p in ops && after[p] == ops[p] {}
    forall j | MidStore(ops, j) ensures MidStore(after, j) {
      var p :| p in ops && InPipeline(ops[p]) && ops[p].jti == j;
      assert p in after && after[p] == ops[p];
    }
  }

  lemma TickKeepsCovering(db: Db, ops: Ops, overlapped: set<Jti>, d: nat)
    requires Covering(db, ops, overlapped)
    requires forall o :: o in ops ==> !InPipeline(ops[o])
    ensures Covering(Tick(db, d), ops, overlapped)
  {}

  /** Deleting keys leaves less to cover. */
  lemma DelKeyKeepsCovering(db: Db, ops: Ops, overlapped: set<Jti>, jti: Jti)
    requires Covering(db, ops, overlapped)
    ensures Covering(DelKey(db, jti), ops, overlapped)
  {
    var post := DelKey(db, jti);
    forall j | Trusted(post, overlapped, j)
      ensures Trusted(db, overlapped, j) && (MidStore(ops, j) || Indexed(post, j)) && post.refresh[j] == db.refresh[j]
    {
      assert Trusted(db, overlapped, j);
    }
    forall u ensures Members(post, u) == Members(db, u) {}
  }

  lemma SremKeepsCovering(db: Db, ops: Ops, overlapped: set<Jti>, uid: Uid, jti: Jti)
    requires Covering(db, ops, overlapped) && jti !in db.refresh
    ensures Covering(Srem(db, uid, jti), ops, overlapped)
  {
    var post := Srem(db, uid, jti);
    forall u, j | j != jti && j in Members(db, u) ensures j in Members(post, u) && u in post.sessions
      && post.sessions[u].deadline == db.sessions[u].deadline
    {}
    forall j | Trusted(post, overlapped, j) ensures MidStore(ops, j) || Indexed(post, j) {
      assert Trusted(db, overlapped, j);
      if !MidStore(ops, j) {
        assert Indexed(db, j) && j in Members(db, db.refresh[j].uid);
      }
    }
  }

  /** The store begins: covered by its own pipeline, or marked when a revoke-all is running. */
  lemma SetExKeepsCovering(db: Db, ops: Ops, overlapped: set<Jti>, o: OpId)
    requires Covering(db, ops, overlapped)
    requires o in ops && ops[o].Storing? && ops[o].stage == ToSet && ops[o].jti !in db.refresh
    requires forall p :: p in ops && p != o && InPipeline(ops[p]) ==> ops[p].jti != ops[o].jti
    ensures var op := ops[o];
            var marked := if RevokeRunning(ops, op.sub) then overlapped + {op.jti} else overlapped;
            Covering(SetEx(db, op.jti, op.sub, REFRESH_TTL), ops[o := op.(stage := ToAdd)], marked)
  {
    var op := ops[o];
    var after := ops[o := op.(stage := ToAdd)];
    var marked := if RevokeRunning(ops, op.sub) then overlapped + {op.jti} else overlapped;
    var post := SetEx(db, op.jti, op.sub, REFRESH_TTL);
    forall p | p in after && p != o ensures p in ops && after[p] == ops[p] {}
    assert MidStore(after, op.jti) by { assert after[o].jti == op.jti; }
    forall j | Trusted(post, marked, j) && j != op.jti
      ensures Trusted(db, overlapped, j) && post.refresh[j] == db.refresh[j]
      ensures MidStore(after, j) || Indexed(post, j)
    {
      assert Trusted(db, overlapped, j);
      if MidStore(ops, j) {
        var p :| p in ops && InPipeline(ops[p]) && ops[p].jti == j;
        assert p in after && after[p] == ops[p];
      }
    }
    forall r | r in after && after[r].Deleting? && after[r].uid == op.sub ensures op.jti in marked {
      assert r in ops && ops[r].Deleting?;
    }
    forall u ensures Members(post, u) == Members(db, u) {}
  }

  lemma SaddKeepsCovering(db: Db, ops: Ops, overlapped: set<Jti>, o: OpId)
    requires Covering(db, ops, overlapped)
    requires o in ops && ops[o].Storing? && ops[o].stage == ToAdd
    ensures Covering(Sadd(db, ops[o].sub, ops[o].jti), ops[o := ops[o].(stage := ToExpire)], overlapped)
  {
    var op := ops[o];
    var after := ops[o := op.(stage := ToExpire)];
    var post := Sadd(db, op.sub, op.jti);
    forall p | p in after && p != o ensures p in ops && after[p] == ops[p] {}
    forall u ensures Members(db, u) <= Members(post, u) {}
    assert op.jti in Members(post, op.sub);
    forall j | Trusted(post, overlapped, j) ensures MidStore(after, j) || Indexed(post, j) {
      assert Trusted(db, overlapped, j);
      if MidStore(ops, j) {
        var p :| p in ops && InPipeline(ops[p]) && ops[p].jti == j;
        assert p in after && InPipeline(after[p]) && after[p].jti == j;
      } else {
        assert Indexed(db, j);
      }
    }
  }

  /** The store ends: from here on the index itself covers the token. */
  lemma ExpireKeepsCovering(db: Db, ops: Ops, stored: Keys, overlapped: set<Jti>, o: OpId)
    requires Covering(db, ops, overlapped) && OnTime(ops, stored, db.now) && KeysSound(db.refresh, stored)
    requires forall j :: j in stored ==> stored[j].expiry <= db.now + REFRESH_TTL
    requires o in ops && ops[o].Storing? && ops[o].stage == ToExpire
    ensures Covering(ExpireIndex(db, ops[o].sub, REFRESH_TTL), ops - {o}, overlapped)
  {
    var op := ops[o];
    var after := ops - {o};
    var post := ExpireIndex(db, op.sub, REFRESH_TTL);
    forall p | p in after ensures p in ops && after[p] == ops[p] {}
    forall u ensures Members(post, u) == Members(db, u) {}
    forall j | Trusted(post, overlapped, j) ensures MidStore(after, j) || Indexed(post, j) {
      assert Trusted(db, overlapped, j);
      if j == op.jti {
        assert j in Members(db, op.sub);
      } else if MidStore(ops, j) {
        var p :| p in ops && InPipeline(ops[p]) && ops[p].jti == j;
        assert p in after && after[p] == ops[p];
      } else {
        assert Indexed(db, j);
      }
    }
  }

  /** The revoke-all begins: its list holds every trusted token of the user. */
  lemma SmembersKeepsCovering(db: Db, ops: Ops, overlapped: set<Jti>, o: OpId, order: seq<Jti>)
    requires Covering(db, ops, overlapped)
    requires o in ops && ops[o].Listing? && forall j :: j in order <==> j in Members(db, ops[o].uid)
    requires forall p, j :: p in ops && InPipeline(ops[p]) && ops[p].jti == j && LiveKey(db, j) ==>
      db.refresh[j].uid == ops[p].sub
    ensures var uid := ops[o].uid;
            Covering(db, ops[o := Deleting(uid, order)], overlapped + InPipelineOf(ops, uid))
  {
    var uid := ops[o].uid;
    var after, marked := ops[o := Deleting(uid, order)], overlapped + InPipelineOf(ops, uid);
    forall p | p in after && p != o ensures p in ops && after[p] == ops[p] {}
    forall j | MidStore(ops, j) ensures MidStore(after, j) {
      var p :| p in ops && InPipeline(ops[p]) && ops[p].jti == j;
      assert p in after && after[p] == ops[p];
    }
    forall j | MidStore(ops, j) && LiveKey(db, j) && db.refresh[j].uid == uid ensures j in InPipelineOf(ops, uid) {
      var p :| p in ops && InPipeline(ops[p]) && ops[p].jti == j;
    }
    forall j | Trusted(db, marked, j) && db.refresh[j].uid == uid ensures j in order {
      assert Trusted(db, overlapped, j);
      assert Indexed(db, j);
    }
    forall p | p in after && InPipeline(after[p]) && after[p].sub == uid ensures after[p].jti in marked {
      assert p in ops;
    }
  }

  lemma DelNextKeepsCovering(db: Db, ops: Ops, overlapped: set<Jti>, o: OpId)
    requires Covering(db, ops, overlapped)
    requires o in ops && ops[o].Deleting? && ops[o].rest != []
    ensures var Deleting(uid, rest) := ops[o];
            Covering(DelKey(db, rest[0]), ops[o := Deleting(uid, rest[1..])], overlapped)
  {
    var Deleting(uid, rest) := ops[o];
    DelKeyKeepsCovering(db, ops, overlapped, rest[0]);
    var post, after := DelKey(db, rest[0]), ops[o := Deleting(uid, rest[1..])];
    forall p | p in after && p != o ensures p in ops && after[p] == ops[p] {}
    forall j | MidStore(ops, j) ensures MidStore(after, j) {
      var p :| p in ops && InPipeline(ops[p]) && ops[p].jti == j;
      assert p in after && after[p] == ops[p];
    }
    forall j | Trusted(post, overlapped, j) && post.refresh[j].uid == uid ensures j in rest[1..] {
      assert j in rest && j != rest[0];
    }
  }

  /** The revoke-all ends: no trusted token of the user is left, so the index may go. */
  lemma DelIndexKeepsCovering(db: Db, ops: Ops, overlapped: set<Jti>, o: OpId)
    requires Covering(db, ops, overlapped)
    requires o in ops && ops[o].Deleting? && ops[o].rest == []
    requires forall p, j :: p in ops && InPipeline(ops[p]) && ops[p].jti == j && LiveKey(db, j) ==>
      db.refresh[j].uid == ops[p].sub
    ensures Covering(DelIndex(db, ops[o].uid), ops - {o}, overlapped)
  {
    var uid := ops[o].uid;
    var post, after := DelIndex(db, uid), ops - {o};
    forall p | p in after ensures p in ops && after[p] == ops[p] {}
    forall j | Trusted(post, overlapped, j)
      ensures Trusted(db, overlapped, j) && db.refresh[j].uid != uid
      ensures MidStore(after, j) || Indexed(post, j)
    {
      assert Trusted(db, overlapped, j);
      if MidStore(ops, j) {
        var p :| p in ops && InPipeline(ops[p]) && ops[p].jti == j;
        assert p in after && after[p] == ops[p];
      }
    }
    forall u | u != uid ensures Members(post, u) == Members(db, u) {}
  }

  ghost predicate Invariant(s: State) {
    Provenance(s) && Ledger(s) && Families(s) && Linear(s) && Coverage(s)
  }
}
