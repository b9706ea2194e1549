/**
 * Runs of several server operations in a row, showing two behaviours of
 * the token lifecycle that no single operation exhibits: an authorisation
 * code can be exchanged more than once, and replaying a rotated refresh
 * token revokes the token that replaced it.
 */
module ServerScenarios {
  import opened Common
  import opened ApiErrors
  import opened Tokens
  import opened AuthServer
  import Pkce

  /**
   * `exchangeAuthCode` reads the code cache and never deletes from it, so a
   * code that passes its checks once passes them again: two exchanges of the
   * same code both yield token pairs, of two different families.
   */
  method AuthCodeIsReusable(s: Server, code: Id, verifier: string, clientId: string, nowMs: nat, sha: Pkce.Sha256)
    returns (first: Result<TokenPair, ApiError>, second: Result<TokenPair, ApiError>)
    requires s.Valid() && ExchangeCheck(s.authCodeCache, code, verifier, clientId, nowMs, sha).Ok?
    modifies s
    ensures s.Valid()
    ensures first.Ok? && second.Ok?
    ensures Family(first.value.refreshToken.claims) != Family(second.value.refreshToken.claims)
  {
    var userId := s.authCodeCache[code].userId;
    CapNeverReached(s.refreshTokens, userId, s.config.activeRefreshTokens);
    first := s.ExchangeAuthCode(code, verifier, clientId, nowMs, sha);
    CapNeverReached(s.refreshTokens, userId, s.config.activeRefreshTokens);
    second := s.ExchangeAuthCode(code, verifier, clientId, nowMs, sha);
  }

  /**
   * Rotating a live refresh token and then presenting the old token again
   * revokes the whole family: the replay fails, and so does the rotation of
   * the token that the first rotation issued.
   */
  method ReplayRevokesRotatedToken(s: Server, t0: Jwt, nowMs: nat)
    returns (r1: Result<TokenPair, ApiError>, r2: Result<TokenPair, ApiError>, r3: Result<TokenPair, ApiError>)
    requires s.Valid() && s.Genuine(t0) && Verify(t0, RefreshKey, nowMs).Some?
    requires t0.claims.RefreshClaims? && t0.claims.jti in s.refreshTokens
    modifies s
    ensures s.Valid()
    ensures r1.Ok? && r2.Err? && r3.Err?
    ensures r2.error == ApiError(Unauthorized, BadRefreshToken)
    ensures forall k :: k in s.refreshTokens ==> s.refreshTokens[k].parentTokenId != Family(t0.claims).value
  {
    var family := Family(t0.claims).value;
    r1 := s.RefreshTokenPair(t0, nowMs);
    var t1 := r1.value.refreshToken;
    assert t0.claims.jti !in s.refreshTokens;
    r2 := s.RefreshTokenPair(t0, nowMs);
    assert t1.claims.jti !in s.refreshTokens;
    r3 := s.RefreshTokenPair(t1, nowMs);
  }
}
