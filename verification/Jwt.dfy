/** Token claims. Signatures are ideal: a token decodes exactly when its claims were signed. */
module Jwt {
  import opened Prelude
  import opened Redis
  import opened SessionStore

  datatype TokenKind = Access | Refresh

  datatype Claims = Claims(sub: Uid, email: Email, iat: int, exp: int, jti: Jti, kind: TokenKind)

  datatype DomainError = InvalidToken | WrongTokenKind

  /** All claims signed so far, by their unique token id. */
  type Issued = map<Jti, Claims>

  function Ttl(kind: TokenKind): nat {
    match kind
    case Access => ACCESS_TTL
    case Refresh => REFRESH_TTL
  }

  function SignWithClaims(now: int, uid: Uid, email: Email, kind: TokenKind, jti: Jti): Claims {
    Claims(uid, email, now, now + Ttl(kind), jti, kind)
  }

  predicate Genuine(issued: Issued, claims: Claims) {
    claims.jti in issued && issued[claims.jti] == claims
  }

  /** The library accepts a token up to `leeway` seconds past `exp`. */
  predicate Unexpired(claims: Claims, now: int, leeway: nat) {
    now <= claims.exp + leeway
  }

  function DecodeAndCheck(issued: Issued, token: Claims, expected: TokenKind, now: int, leeway: nat)
    : Result<Claims, DomainError>
  {
    if !Genuine(issued, token) || !Unexpired(token, now, leeway) then Err(InvalidToken)
    else if token.kind != expected then Err(WrongTokenKind)
    else Ok(token)
  }

  /** Signing and checking are inverse for as long as the token lasts, for the
      signed kind only, and for no other claims with the same id. */
  lemma SignThenDecode(issued: Issued, now: int, uid: Uid, email: Email, kind: TokenKind, jti: Jti,
                       presented: Claims, expected: TokenKind, later: int, leeway: nat)
    requires presented.jti == jti
    ensures var token := SignWithClaims(now, uid, email, kind, jti);
            DecodeAndCheck(issued[jti := token], presented, expected, later, leeway) ==
            if presented == token && later - now <= Ttl(kind) + leeway
            then (if expected == kind then Ok(token) else Err(WrongTokenKind))
            else Err(InvalidToken)
  {}

  /** Signed at `s` and written to Redis at `db.now`, is the token accepted `d` seconds later? */
  predicate AcceptedAfter(db: Db, s: int, uid: Uid, email: Email, jti: Jti, d: nat, leeway: nat) {
    var token := SignWithClaims(s, uid, email, Refresh, jti);
    LiveKey(Tick(Stored(db, jti, uid, REFRESH_TTL), d), jti) && Unexpired(token, db.now + d, leeway)
  }

  /** Liveness in Redis decides alone, for the whole 7 days and not a second more,
      exactly when the write followed the signing within the leeway plus one second. */
  lemma TwoExpiriesOneVerdict(db: Db, s: int, uid: Uid, email: Email, jti: Jti, leeway: nat)
    requires s <= db.now
    ensures (forall d: nat :: AcceptedAfter(db, s, uid, email, jti, d, leeway) <==> d < 604800)
            <==> db.now <= s + leeway + 1
  {
    if db.now > s + leeway + 1 {
      assert !AcceptedAfter(db, s, uid, email, jti, REFRESH_TTL - 1, leeway);
    }
  }
}
