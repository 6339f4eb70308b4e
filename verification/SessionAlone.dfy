/** A handler whose commands run back to back has exactly the effect that the store's
    method promises: the two granularities agree. */
module SessionAlone {
  import opened Prelude
  import opened Redis
  import opened SessionStore
  import opened SessionMachine
  import opened Handlers

  lemma StoreAlone(s: State, o: OpId)
    requires At(s, o, ToSet)
    ensures var set_ := SetExStep(s, o);
            && At(set_, o, ToAdd)
            && var added := SaddStep(set_, o);
            && At(added, o, ToExpire)
            && ExpireIndex(added.db, added.ops[o].sub, REFRESH_TTL)
               == Stored(s.db, s.ops[o].jti, s.ops[o].sub, REFRESH_TTL)
  {}

  lemma ConsumeAlone(s: State, o: OpId)
    requires o in s.ops && s.ops[o].Consuming?
    ensures var jti, got := s.ops[o].claims.jti, GetDelStep(s, o);
            if LiveKey(s.db, jti)
            then o in got.ops && got.ops[o].Unlisting? && SremStep(got, o).db == Revoked(s.db, jti)
            else o !in got.ops && got.db == Revoked(s.db, jti)
    ensures var op, got := s.ops[o], GetDelStep(s, o);
            LiveKey(s.db, op.claims.jti) ==>
              var next := SremStep(got, o).ops;
              if op.purpose == Logout then o !in next
              else && o in next && next[o].SigningAccess?
                   && next[o].sub == op.claims.sub && next[o].email == op.claims.email
  {}

  /** Signing and storing, undisturbed, is what a login or a refresh issues. */
  lemma IssueAlone(s: State, o: OpId, w: World, a: Jti, r: Jti)
    requires o in s.ops && s.ops[o].SigningAccess? && a !in s.issued && r !in s.issued && a != r
    requires w.db == s.db && w.issued == s.issued
    ensures var SigningAccess(family, sub, email) := s.ops[o];
            var one := Apply(s, SignAccess(o, a));
            && Enabled(one, SignRefresh(o, r))
            && var two := Apply(one, SignRefresh(o, r));
            && two.ops[o] == Storing(ToSet, family, sub, r)
            && var t := IssueSpec(w, sub, email, a, r).0;
            && two.issued == t.issued && Stored(two.db, r, sub, REFRESH_TTL) == t.db
  {}

  /** The DELs of a revoke-all, one after the other. */
  function DeleteAll(s: State, o: OpId): State
    requires o in s.ops && s.ops[o].Deleting?
    decreases |s.ops[o].rest|
  {
    if s.ops[o].rest == [] then Finish(s, o).(db := DelIndex(s.db, s.ops[o].uid))
    else DeleteAll(DelKeyStep(s, o), o)
  }

  lemma {:induction false} DeletesAll(s: State, o: OpId)
    requires o in s.ops && s.ops[o].Deleting?
    ensures DeleteAll(s, o).db == DelIndex(s.db, s.ops[o].uid).(refresh := s.db.refresh - set j | j in s.ops[o].rest)
    decreases |s.ops[o].rest|
  {
    var rest := s.ops[o].rest;
    if rest == [] {
      assert s.db.refresh - (set j | j in rest) == s.db.refresh;
    } else {
      DeletesAll(DelKeyStep(s, o), o);
      assert (set j | j in rest) == {rest[0]} + set j | j in rest[1..];
      assert s.db.refresh - {rest[0]} - (set j | j in rest[1..]) == s.db.refresh - set j | j in rest;
    }
  }

  lemma ListedIsAllRevoked(db: Db, uid: Uid, order: seq<Jti>)
    requires forall j :: j in order <==> j in Members(db, uid)
    ensures order == [] ==> AllRevoked(db, uid) == db
    ensures order != [] ==> AllRevoked(db, uid) == DelIndex(db, uid).(refresh := db.refresh - set j | j in order)
  {
    assert (set j | j in order) == Members(db, uid);
    assert order != [] ==> order[0] in Members(db, uid);
  }

  lemma RevokeAllAlone(s: State, o: OpId, order: seq<Jti>)
    requires o in s.ops && s.ops[o].Listing? && forall j :: j in order <==> j in Members(s.db, s.ops[o].uid)
    ensures var listed := SmembersStep(s, o, order);
            if order == [] then o !in listed.ops && listed.db == AllRevoked(s.db, s.ops[o].uid)
            else o in listed.ops && listed.ops[o].Deleting? && DeleteAll(listed, o).db == AllRevoked(s.db, s.ops[o].uid)
  {
    ListedIsAllRevoked(s.db, s.ops[o].uid, order);
    if order != [] {
      var listed := SmembersStep(s, o, order);
      assert listed.ops[o] == Deleting(s.ops[o].uid, order) && listed.db == s.db;
      DeletesAll(listed, o);
    }
  }
}
