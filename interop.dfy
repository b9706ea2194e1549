/**
 * The two halves against each other: the JSON answers the server's
 * endpoints and gate produce, read by the browser's `request`, and the PKCE
 * challenge the browser sends, checked by the server's code exchange.
 */
module Interop {
  import opened Common
  import opened Tokens
  import ApiErrors
  import ClientErrors
  import HttpClient
  import ClientAuth
  import AuthServer
  import Routes
  import Pkce
  import Utf8

  /**
   * How an endpoint answers a thrown server error: `c.status(e.status)` and
   * the body `{message: e.message, code: e.code}`.
   */
  function ErrorAnswer(e: ApiErrors.ApiError): HttpClient.Response {
    HttpClient.HttpFailure(ApiErrors.Status(e.kind),
      HttpClient.JsonObject(Some(ApiErrors.Code(e.kind)), Some(ApiErrors.Text(e.message))))
  }

  /** How the gate's rejection is answered: its status and the body `{message}`, without a code. */
  function RejectAnswer(g: Routes.GateResult): HttpClient.Response
    requires g.Reject?
  {
    HttpClient.HttpFailure(g.status, HttpClient.JsonObject(None, Some(ApiErrors.Text(g.message))))
  }

  /**
   * A server error with a non-empty message reaches the browser as an
   * `HttpError` with the server's status, code and message; only the
   * `Unauthorized` kind is a 401 that `authRequest` answers with a refresh.
   */
  lemma ServerErrorReachesClient(e: ApiErrors.ApiError)
    requires ApiErrors.Text(e.message) != ""
    ensures HttpClient.Request(ErrorAnswer(e))
      == Err(ClientErrors.HttpError(ApiErrors.Status(e.kind), ApiErrors.Code(e.kind), ClientErrors.Received(ApiErrors.Text(e.message))))
    ensures ClientAuth.IsUnauthorized(HttpClient.Request(ErrorAnswer(e))) <==> e.kind == ApiErrors.Unauthorized
  {
    assert ApiErrors.Code(e.kind) != "";
    if ClientAuth.IsUnauthorized(HttpClient.Request(ErrorAnswer(e))) {
      ApiErrors.StatusAndCodeInjective(e.kind, ApiErrors.Unauthorized);
    }
  }

  /**
   * The gate's 401 carries no code, so the browser sees an `HttpError` with
   * status 401, the code `E_HTTP` and the gate's message, and retries after
   * a refresh.
   */
  lemma GateRejectionIsRetried(e: Routes.Endpoint, header: Option<string>, decode: string -> Option<Jwt>, nowMs: nat)
    requires Routes.Gate(e, header, decode, nowMs).Reject?
    ensures HttpClient.Request(RejectAnswer(Routes.Gate(e, header, decode, nowMs)))
      == Err(ClientErrors.HttpError(401, "E_HTTP", ClientErrors.Received(ApiErrors.Text(ApiErrors.MissingAccessToken))))
    ensures ClientAuth.IsUnauthorized(HttpClient.Request(RejectAnswer(Routes.Gate(e, header, decode, nowMs))))
  {
  }

  /**
   * `signInOrCreateAccount` goes on to log in after an account creation
   * fails exactly when the server refused it because the account exists
   * (`ResourceExistsError`, status 409).
   */
  lemma DuplicateAccountLeadsToLogin(e: ApiErrors.ApiError)
    requires ApiErrors.Text(e.message) != ""
    ensures ClientAuth.ProceedsToLogin(HttpClient.Request(ErrorAnswer(e))) <==> e.kind == ApiErrors.ResourceExists
  {
    ServerErrorReachesClient(e);
    if ClientAuth.ProceedsToLogin(HttpClient.Request(ErrorAnswer(e))) {
      ApiErrors.StatusAndCodeInjective(e.kind, ApiErrors.ResourceExists);
    }
  }

  /**
   * The challenge `login` sends to `/auth/authorize`, once cached for the
   * code, is accepted by `exchangeAuthCode` for the verifier `login` then
   * sends to `/auth/tokens`, from the same client and before the code
   * expires; a verifier with another digest is refused.
   */
  lemma LoginChallengeAccepted(host: string, idToken: string, verifier: string, clientId: string, sha: Pkce.Sha256,
                               cache: map<Id, AuthServer.AuthCodeRecord>, code: Id, authCode: Option<string>,
                               other: string, nowMs: nat)
    requires code in cache && cache[code].clientId == clientId && nowMs < cache[code].expires
    requires cache[code].codeChallenge
      == ClientAuth.AuthorizeRequest(host, idToken, Pkce.S256(verifier, sha), clientId).options.json.codeChallenge
    ensures var sent := ClientAuth.TokensRequest(host, authCode, verifier, clientId).options.json;
      AuthServer.ExchangeCheck(cache, code, sent.codeVerifier, sent.clientId, nowMs, sha) == Ok(cache[code])
    ensures sha(Utf8.Encode(other)) != sha(Utf8.Encode(verifier)) ==>
      AuthServer.ExchangeCheck(cache, code, other, clientId, nowMs, sha)
        == Err(ApiErrors.ApiError(ApiErrors.Unauthorized, ApiErrors.ChallengeFailed))
  {
    Pkce.PkceRoundTrip(verifier, sha);
    if Pkce.VerifyPkceChallenge(cache[code].codeChallenge, other, sha) {
      Pkce.ChallengeBindsDigest(cache[code].codeChallenge, verifier, other, sha);
    }
  }
}
