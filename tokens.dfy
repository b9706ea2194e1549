/**
 * JSON Web Tokens as the server signs and checks them with `jsonwebtoken`:
 * RS256 signatures (section 3.3 of RFC 7518) over a payload of claims, an
 * `exp` claim in seconds, and an optional `jti` (section 4.1.7 of RFC 7519).
 * The signature itself is not computed: a token records the key that signed
 * it, and verification succeeds only against that key and only before `exp`.
 */
module Tokens {
  import opened Common

  /** Identifiers produced by `hyperid()` and `ulid()`. */
  type Id = nat

  /** The access-token key pair, the refresh-token key pair, or a key the server does not hold. */
  datatype Key = AccessKey | RefreshKey | OtherKey

  /** The two payload shapes the server signs: `{id}` and `{id, parent_token}` with a `jti`. */
  datatype Claims =
    | AccessClaims(id: Id)
    | RefreshClaims(id: Id, parentToken: Option<Id>, jti: Id)

  /** A signed token: signing key, payload, and the `iat` and `exp` claims in seconds. */
  datatype Jwt = Jwt(key: Key, claims: Claims, iat: int, exp: int)

  /** `Math.floor(nowMs / 1000)`: the clock in whole seconds, as both `jwt.sign` and `jwt.verify` read it. */
  function Seconds(nowMs: nat): nat {
    nowMs / 1000
  }

  /** `jwt.sign(claims, key, {expiresIn})` at time `nowMs`. */
  function Sign(key: Key, claims: Claims, nowMs: nat, expiresIn: nat): (t: Jwt)
    ensures t.key == key && t.claims == claims
    ensures t.exp - t.iat == expiresIn
  {
    Jwt(key, claims, Seconds(nowMs), Seconds(nowMs) + expiresIn)
  }

  /** `jwt.verify(token, publicKey)`: the payload when the signature matches and the token has not expired. */
  function Verify(t: Jwt, key: Key, nowMs: nat): (r: Option<Claims>)
    ensures r.Some? ==> r.value == t.claims
  {
    if t.key == key && Seconds(nowMs) < t.exp then Some(t.claims) else None
  }

  /** A token verifies with the key that signed it, until and only until its expiry. */
  lemma SignThenVerify(key: Key, claims: Claims, signedMs: nat, expiresIn: nat, nowMs: nat)
    ensures Verify(Sign(key, claims, signedMs, expiresIn), key, nowMs).Some?
      <==> Seconds(nowMs) < Seconds(signedMs) + expiresIn
  {
  }

  /** A token verifies under at most one key, so access and refresh tokens cannot stand in for each other. */
  lemma KeySeparation(t: Jwt, k1: Key, k2: Key, nowMs: nat)
    requires Verify(t, k1, nowMs).Some? && Verify(t, k2, nowMs).Some?
    ensures k1 == k2
  {
  }

  /** Once a token has expired it never verifies again. */
  lemma ExpiryIsFinal(t: Jwt, key: Key, nowMs: nat, laterMs: nat)
    requires nowMs <= laterMs && Verify(t, key, nowMs).None? && t.key == key
    ensures Verify(t, key, laterMs).None?
  {
    assert Seconds(nowMs) <= Seconds(laterMs);
  }

  /** A token signed with a positive lifetime verifies at the moment it is signed. */
  lemma FreshTokenVerifies(key: Key, claims: Claims, nowMs: nat, expiresIn: nat)
    requires expiresIn > 0
    ensures Verify(Sign(key, claims, nowMs, expiresIn), key, nowMs) == Some(claims)
  {
  }

  /** `payload.parent_token ?? payload.jti`: the family a refresh token belongs to (none for other payloads). */
  function Family(c: Claims): (f: Option<Id>)
    ensures c.AccessClaims? ==> f.None?
    ensures c.RefreshClaims? && c.parentToken.Some? ==> f == c.parentToken
    ensures c.RefreshClaims? && c.parentToken.None? ==> f == Some(c.jti)
  {
    match c
    case AccessClaims(_) => None
    case RefreshClaims(_, parent, jti) => Some(parent.OrElse(jti))
  }
}
