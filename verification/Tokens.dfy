/** JWT claims, their validation against the deny list, and how long a revocation lasts. */
module Tokens {
  import opened TokenStore
  import opened Wrappers

  datatype Kind = Access | Refresh

  datatype Claims = Claims(sub: Uuid, jti: Uuid, iat: real, exp: real, kind: Kind)

  /** Signing is abstracted: a string either carries a valid signature or it does not. */
  datatype Raw = Forged | Signed(claims: Claims)

  datatype AuthError = InvalidOrExpired | RevokedToken | WrongType

  datatype Decoded = Accepted(claims: Claims) | Unauthorized(error: AuthError)

  const DAY_SECONDS := 86400.0

  function Lifetime(days: nat): real {
    days as real * DAY_SECONDS
  }

  function RefreshClaims(userId: Uuid, jti: Uuid, now: real, days: nat): Claims {
    Claims(userId, jti, now, now + Lifetime(days), Refresh)
  }

  /** RFC 7519, section 4.1.4: not accepted on or after exp, apart from a small leeway. */
  predicate Verifies(raw: Raw, now: real, leeway: real) {
    raw.Signed? && now < raw.claims.exp + leeway
  }

  /** Signature and expiry are checked at now, the deny list is consulted at later. */
  function Decode(raw: Raw, c: Contents, expected: Option<Kind>, leeway: real, now: real, later: real): Decoded {
    if !Verifies(raw, now, leeway) then Unauthorized(InvalidOrExpired)
    else if raw.claims.jti != "" && Live(c, raw.claims.jti, later) then Unauthorized(RevokedToken)
    else if expected.Some? && raw.claims.kind != expected.value then Unauthorized(WrongType)
    else Accepted(raw.claims)
  }

  /** Accepted exactly when signed, unexpired, not denied and of the expected kind, with the token's own claims; and
      each refusal names the first of these that fails. */
  lemma DecodeIff(raw: Raw, c: Contents, expected: Option<Kind>, leeway: real, now: real, later: real)
    ensures var r := Decode(raw, c, expected, leeway, now, later);
            var sound := raw.Signed? && now < raw.claims.exp + leeway;
            var denied := sound && raw.claims.jti != ""
                          && raw.claims.jti in c.expiry && later <= c.expiry[raw.claims.jti];
            var fits := sound && (expected == None || expected == Some(raw.claims.kind));
            && (r.Accepted? <==> sound && !denied && fits)
            && (r.Accepted? ==> r.claims == raw.claims)
            && (r == Unauthorized(InvalidOrExpired) <==> !sound)
            && (r == Unauthorized(RevokedToken) <==> denied)
            && (r == Unauthorized(WrongType) <==> sound && !denied && !fits)
  {
  }

  method DecodeToken(raw: Raw, store: InMemoryTokenStore, expected: Option<Kind>, leeway: real, now: real, later: real)
    returns (r: Decoded)
    modifies store
    ensures r == Decode(raw, old(store.Value()), expected, leeway, now, later)
    ensures r.Accepted? <==>
              && raw.Signed? && now < raw.claims.exp + leeway
              && !(raw.claims.jti != "" && raw.claims.jti in old(store.expiry)
                   && later <= old(store.expiry)[raw.claims.jti])
              && (expected == None || expected == Some(raw.claims.kind))
    ensures r.Accepted? ==> raw == Signed(r.claims)
    ensures store.Value() == if Verifies(raw, now, leeway) && raw.claims.jti != ""
                             then LookedUp(old(store.Value()), raw.claims.jti, later) else old(store.Value())
  {
    if !Verifies(raw, now, leeway) { return Unauthorized(InvalidOrExpired); }
    var jti := raw.claims.jti;
    if jti != "" {
      var revoked := store.Contains(jti, later);
      if revoked { return Unauthorized(RevokedToken); }
    }
    if expected.Some? && raw.claims.kind != expected.value { return Unauthorized(WrongType); }
    return Accepted(raw.claims);
  }

  // ------------------------------------------------- permanence of revocation

  /** The store right after revocation: the deny entry lasts exactly ttl from revokedAt. */
  ghost predicate JustRevoked(c: Contents, jti: string, revokedAt: real, ttl: real) {
    jti in c.expiry && c.expiry[jti] == revokedAt + ttl
  }

  /** A decode made some time after the steps, whose lookup trails its expiry check by at most lag. */
  ghost predicate LaterDecode(steps: seq<Step>, revokedAt: real, lag: real, now: real, later: real) {
    && revokedAt <= now <= later <= now + lag
    && forall i :: 0 <= i < |steps| ==> EndTime(steps[i]) <= now
  }

  ghost predicate RevokedForGood(c: Contents, claims: Claims, revokedAt: real, ttl: real, leeway: real, lag: real) {
    forall steps, expected, now, later ::
      InOrder(revokedAt, steps) && KeySpacesKept(steps, ttl) && LaterDecode(steps, revokedAt, lag, now, later)
      ==> Decode(Signed(claims), ApplyAll(c, steps), expected, leeway, now, later).Unauthorized?
  }

  lemma RevokedTokenRejected(c: Contents, claims: Claims, revokedAt: real, ttl: real, leeway: real, lag: real,
                             steps: seq<Step>, expected: Option<Kind>, now: real, later: real)
    requires claims.jti != "" && JustRevoked(c, claims.jti, revokedAt, ttl)
    requires ttl >= 0.0 && claims.exp + leeway + lag <= revokedAt + ttl
    requires InOrder(revokedAt, steps) && KeySpacesKept(steps, ttl) && LaterDecode(steps, revokedAt, lag, now, later)
    ensures Decode(Signed(claims), ApplyAll(c, steps), expected, leeway, now, later).Unauthorized?
  {
    hide HasColon, InOrder, KeySpacesKept, ApplyAll;
    if now < claims.exp + leeway {
      DenyEntrySurvives(c, steps, claims.jti, revokedAt, ttl, now);
    }
  }

  /**
   A token that was still valid when it was revoked stays rejected, through any
   later store traffic, if and only if its deny entry lasts at least as long as
   any decode could still verify it.
   */
  lemma RevocationPermanentIff(c: Contents, claims: Claims, revokedAt: real, ttl: real, leeway: real, lag: real)
    requires claims.jti != "" && JustRevoked(c, claims.jti, revokedAt, ttl)
    requires ttl >= 0.0 && lag >= 0.0 && Verifies(Signed(claims), revokedAt, leeway)
    ensures RevokedForGood(c, claims, revokedAt, ttl, leeway, lag) <==> claims.exp + leeway + lag <= revokedAt + ttl
  {
    if claims.exp + leeway + lag <= revokedAt + ttl {
      hide HasColon, InOrder, KeySpacesKept, ApplyAll, Decode, JustRevoked, LaterDecode;
      forall steps, expected, now, later |
        InOrder(revokedAt, steps) && KeySpacesKept(steps, ttl) && LaterDecode(steps, revokedAt, lag, now, later)
        ensures Decode(Signed(claims), ApplyAll(c, steps), expected, leeway, now, later).Unauthorized?
      {
        RevokedTokenRejected(c, claims, revokedAt, ttl, leeway, lag, steps, expected, now, later);
      }
    } else {
      var floor := if revokedAt >= revokedAt + ttl - lag then revokedAt else revokedAt + ttl - lag;
      var now := (floor + claims.exp + leeway) / 2.0;
      var steps: seq<Step> := [];
      assert InOrder(revokedAt, steps) && KeySpacesKept(steps, ttl);
      assert LaterDecode(steps, revokedAt, lag, now, now + lag);
      assert ApplyAll(c, steps) == c;
      assert !Live(c, claims.jti, now + lag);
      assert Decode(Signed(claims), ApplyAll(c, steps), None, leeway, now, now + lag) == Accepted(claims);
    }
  }

  /**
   A refresh token this service issued stays revoked if and only if it was
   revoked at least the leeway and the lag after it was issued; with neither,
   every revocation is permanent.
   */
  lemma IssuedTokenStaysRevokedIff(c: Contents, userId: Uuid, jti: Uuid, issuedAt: real, revokedAt: real, days: nat,
                                   leeway: real, lag: real)
    requires jti != "" && lag >= 0.0
    requires JustRevoked(c, jti, revokedAt, Lifetime(days))
    requires Verifies(Signed(RefreshClaims(userId, jti, issuedAt, days)), revokedAt, leeway)
    ensures RevokedForGood(c, RefreshClaims(userId, jti, issuedAt, days), revokedAt, Lifetime(days), leeway, lag)
            <==> issuedAt + leeway + lag <= revokedAt
  {
    var claims := RefreshClaims(userId, jti, issuedAt, days);
    assert claims.exp == issuedAt + Lifetime(days);
    assert Lifetime(days) >= 0.0;
    hide RefreshClaims, Lifetime, RevokedForGood, HasColon, JustRevoked;
    RevocationPermanentIff(c, claims, revokedAt, Lifetime(days), leeway, lag);
  }

  /** Adding a jti with the refresh lifetime, as all three revocation paths do, is such a revocation. */
  lemma AddRevokes(c: Contents, jti: string, ttl: real, now: real, later: real)
    requires now <= later <= now + ttl
    ensures JustRevoked(Added(c, jti, ttl, now, later), jti, now, ttl)
  {
  }
}
