/** A reset whose SQL statements run back to back changes the tables as the handler's
    specification says: the two granularities agree. */
module ResetAlone {
  import opened Prelude
  import opened Validation
  import opened Repositories
  import opened Handlers
  import opened ResetMachine

  lemma RequestAlone(s: State, o: OpId, w: World, raw: Bytes)
    requires UniqueEmails(s.pg) && w.pg == s.pg && w.db.now == s.now
    requires o in s.ops && s.ops[o].Finding? && ValidateEmail(s.ops[o].email).Ok? && Sha256(raw) !in s.generated
    ensures var email := s.ops[o].email;
            var step := FindUser(o, UserOf(s.pg, email), raw);
            && Enabled(s, step)
            && var found := Apply(s, step);
            && ResetRequestSpec(w, email, raw).0.pg ==
               if o in found.ops && found.ops[o].Inserting? then InsertStep(found, o).pg else found.pg
  {}

  lemma ConfirmAlone(s: State, o: OpId, w: World, raw: Bytes, password: Password)
    requires w.pg == s.pg && w.db.now == s.now && raw != [] && ValidatePassword(password).Ok?
    requires o in s.ops && s.ops[o] == Consuming(Sha256(raw), password)
    ensures var consumed := ConsumeStep(s, o);
            && (o in consumed.ops ==> consumed.ops[o].Updating?)
            && ResetConfirmSpec(w, raw, password).0.pg ==
               if o in consumed.ops then Apply(consumed, RunUpdate(o)).pg else consumed.pg
  {}
}
