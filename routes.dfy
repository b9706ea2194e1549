/**
 * The per-endpoint authentication gate that `setup` wraps around every
 * handler (api/Routes.js): for a protected endpoint it takes the second
 * space-separated field of the `Authorization` header (the bearer token of
 * section 2.1 of RFC 6750), verifies it as an access token and stores
 * `auth_user`; every failure is answered with 401 before the handler runs.
 */
module Routes {
  import opened Common
  import opened Js
  import opened ApiErrors
  import opened Tokens
  import opened AuthServer

  /** The value of an endpoint's `auth` property: absent, `true`, or anything else. */
  datatype AuthFlag = Absent | IsTrue | OtherValue

  /** An endpoint module: the names of its own properties and its `auth` value. */
  datatype Endpoint = Endpoint(keys: set<string>, auth: AuthFlag)

  /**
   * `!'auth' in endpoint || endpoint.auth === true`. Unary `!` binds tighter
   * than `in`, so the left operand asks whether the endpoint has a property
   * named `"false"`.
   */
  predicate Guarded(e: Endpoint) {
    "false" in e.keys || e.auth == IsTrue
  }

  /** What the gate does: answer with a status and a `{message}` body, or run the handler with `auth_user` set. */
  datatype GateResult = Reject(status: nat, message: Message) | Proceed(authUser: Option<AuthUser>)

  /** `header.split(" ")[1]`: undefined when the header has no space. */
  function BearerToken(header: string): Option<string> {
    var fields := Split(header, ' ');
    if |fields| > 1 then Some(fields[1]) else None
  }

  /**
   * The gate. `decode` turns the token text into the token `jwt.verify`
   * checks (None when the text is not a JWS at all), `nowMs` is the clock.
   */
  function Gate(e: Endpoint, header: Option<string>, decode: string -> Option<Jwt>, nowMs: nat): (g: GateResult)
    ensures g.Reject? ==> g == Reject(401, MissingAccessToken)
    ensures !Guarded(e) <==> g == Proceed(None)
    ensures g.Proceed? && g.authUser.Some? ==>
      header.Some? && BearerToken(header.value).Some? &&
      VerifyAccessToken(decode(BearerToken(header.value).value), nowMs) == Ok(g.authUser.value)
  {
    if !Guarded(e) then Proceed(None)
    else if !Truthy(header) then Reject(401, MissingAccessToken)
    else
      var token := BearerToken(header.value);
      match VerifyAccessToken(if token.Some? then decode(token.value) else None, nowMs)
      case Ok(user) => Proceed(Some(user))
      case Err(_) => Reject(401, MissingAccessToken)
  }

  /** A protected endpoint without an `Authorization` header (or with an empty one) answers 401. */
  lemma MissingHeaderRejected(e: Endpoint, header: Option<string>, decode: string -> Option<Jwt>, nowMs: nat)
    requires Guarded(e) && !Truthy(header)
    ensures Gate(e, header, decode, nowMs) == Reject(401, MissingAccessToken)
  {
  }

  /** A header with no space has no second field, so nothing is verified and the answer is 401. */
  lemma HeaderWithoutSpaceRejected(e: Endpoint, header: string, decode: string -> Option<Jwt>, nowMs: nat)
    requires Guarded(e) && ' ' !in header
    ensures BearerToken(header).None?
    ensures Gate(e, Some(header), decode, nowMs) == Reject(401, MissingAccessToken)
  {
    SplitNoSeparator(header, ' ');
  }

  /** The token is the field after the first space, whatever word comes before it. */
  lemma BearerTokenOf(scheme: string, token: string)
    requires ' ' !in scheme && ' ' !in token
    ensures BearerToken(scheme + " " + token) == Some(token)
  {
    SplitAfterField(scheme, token, ' ');
    SplitNoSeparator(token, ' ');
  }

  /**
   * `Authorization: <scheme> <token>` with an unexpired access token lets the
   * handler run with `auth_user = {id}` of that token; the scheme word is
   * not checked.
   */
  lemma ValidTokenAdmitted(e: Endpoint, scheme: string, token: string, t: Jwt,
                           decode: string -> Option<Jwt>, nowMs: nat)
    requires Guarded(e) && ' ' !in scheme && ' ' !in token
    requires decode(token) == Some(t) && Verify(t, AccessKey, nowMs).Some?
    ensures Gate(e, Some(scheme + " " + token), decode, nowMs) == Proceed(Some(AuthUser(t.claims.id)))
  {
    BearerTokenOf(scheme, token);
  }

  /** A refresh token is not an access token: presented as a bearer token it is refused with 401. */
  lemma RefreshTokenRejected(e: Endpoint, scheme: string, token: string, t: Jwt,
                             decode: string -> Option<Jwt>, nowMs: nat)
    requires Guarded(e) && ' ' !in scheme && ' ' !in token
    requires decode(token) == Some(t) && t.key == RefreshKey
    ensures Gate(e, Some(scheme + " " + token), decode, nowMs) == Reject(401, MissingAccessToken)
  {
    BearerTokenOf(scheme, token);
  }

  /**
   * An endpoint that leaves `auth` out is not protected: its handler runs
   * with `auth_user = null` and no header is read.
   */
  lemma EndpointWithoutAuthIsOpen(e: Endpoint, header: Option<string>, decode: string -> Option<Jwt>, nowMs: nat)
    requires e.auth != IsTrue && "false" !in e.keys
    ensures Gate(e, header, decode, nowMs) == Proceed(None)
  {
  }
}
