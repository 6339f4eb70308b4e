/** Request validation: the index form of the email check, and the password rules. */
module Validation {
  import opened Prelude

  datatype ApiError = BadRequest | Conflict | Unauthorized | Invalid | Internal

  const AT: byte := 64
  const DOT: byte := 46

  /** Index of the first occurrence. */
  function Find(s: Bytes, b: byte): (r: Option<nat>)
    ensures r.None? <==> b !in s
    ensures r.Some? ==> r.value < |s| && s[r.value] == b && b !in s[..r.value]
  {
    if s == [] then None
    else if s[0] == b then Some(0)
    else
      match Find(s[1..], b)
      case None => None
      case Some(i) =>
        assert s[..i + 1] == [s[0]] + s[1..][..i];
        Some(i + 1)
  }

  /** Index of the last occurrence. */
  function RFind(s: Bytes, b: byte): (r: Option<nat>)
    ensures r.None? <==> b !in s
    ensures r.Some? ==> r.value < |s| && s[r.value] == b && b !in s[r.value + 1..]
  {
    if s == [] then None
    else if s[|s| - 1] == b then Some(|s| - 1)
    else
      var init := s[..|s| - 1];
      match RFind(init, b)
      case None => assert s == init + [s[|s| - 1]]; None
      case Some(i) =>
        assert s[i + 1..] == init[i + 1..] + [s[|s| - 1]];
        Some(i)
  }

  function ValidateParts(local: Bytes, domain: Bytes): Result<(), ApiError> {
    if local == [] || |local| > 64 then Err(Invalid)
    else if [DOT] <= domain then Err(Invalid)
    else
      match RFind(domain, DOT)
      case None => Err(Invalid)
      case Some(dot) => if domain[dot + 1..] == [] then Err(Invalid) else Ok(())
  }

  /** The slices `email[at + 1..]`, `email[..at]` and `domain[dot + 1..]` are in bounds for every input. */
  function ValidateEmail(email: Bytes): Result<(), ApiError> {
    if |email| > 254 then Err(Invalid)
    else
      match Find(email, AT)
      case None => Err(Invalid)
      case Some(at) =>
        if AT in email[at + 1..] then Err(Invalid)
        else ValidateParts(email[..at], email[at + 1..])
  }

  /** At most 254 bytes: a local part of 1 to 64 bytes, one '@', and a domain that
      contains a dot and neither starts nor ends with one. */
  ghost predicate IsAddress(email: Bytes, local: Bytes, domain: Bytes) {
    && |email| <= 254
    && email == local + [AT] + domain
    && AT !in local && AT !in domain
    && 1 <= |local| <= 64
    && DOT in domain && domain[0] != DOT && domain[|domain| - 1] != DOT
  }

  lemma AddressAccepted(email: Bytes, local: Bytes, domain: Bytes)
    requires IsAddress(email, local, domain)
    ensures ValidateEmail(email).Ok?
  {}

  lemma AcceptedParts(email: Bytes)
    requires ValidateEmail(email).Ok?
    ensures |email| <= 254 && Find(email, AT).Some?
    ensures var at := Find(email, AT).value; AT !in email[at + 1..] && ValidateParts(email[..at], email[at + 1..]).Ok?
  {}

  lemma PartsMakeAddress(email: Bytes, at: nat)
    requires |email| <= 254 && at < |email| && email[at] == AT && AT !in email[..at] && AT !in email[at + 1..]
    requires ValidateParts(email[..at], email[at + 1..]).Ok?
    ensures IsAddress(email, email[..at], email[at + 1..])
  {}

  lemma AcceptedIsAddress(email: Bytes)
    requires ValidateEmail(email).Ok?
    ensures exists local, domain :: IsAddress(email, local, domain)
  {
    AcceptedParts(email);
    PartsMakeAddress(email, Find(email, AT).value);
  }

  /** The check accepts exactly these strings. */
  lemma ValidateEmailExact(email: Bytes)
    ensures ValidateEmail(email).Ok? <==> exists local, domain :: IsAddress(email, local, domain)
  {
    if ValidateEmail(email).Ok? {
      AcceptedIsAddress(email);
    }
    if local, domain :| IsAddress(email, local, domain) {
      AddressAccepted(email, local, domain);
    }
  }

  function ValidatePassword(password: Password): Result<(), ApiError> {
    if |password| < 8 then Err(Invalid)
    else if |password| > 128 then Err(Invalid)
    else Ok(())
  }

  function ValidateRegister(email: Bytes, password: Password): Result<(), ApiError> {
    if ValidateEmail(email).Err? then Err(Invalid) else ValidatePassword(password)
  }

  function ValidateLogin(email: Bytes, password: Password): Result<(), ApiError> {
    if ValidateEmail(email).Err? then Err(Invalid)
    else if password == [] then Err(Invalid)
    else if |password| > 128 then Err(Invalid)
    else Ok(())
  }

  function ValidateChange(current: Password, new_: Password): Result<(), ApiError> {
    if current == [] then Err(Invalid)
    else if |current| > 128 then Err(Invalid)
    else ValidatePassword(new_)
  }

  /** A password that could be set can be used: at login and as the current password of a change. */
  lemma SettablePasswordsAreUsable(email: Bytes, password: Password, next: Password)
    requires ValidatePassword(password).Ok?
    ensures ValidateLogin(email, password) == ValidateEmail(email)
    ensures ValidateChange(password, next) == ValidatePassword(next)
  {}
}
