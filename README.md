# Authentication and token lifecycle of 418-nits-hacks, in Dafny

This project models the login machinery of the 418-nits-hacks web application and proves properties of the model. The machinery has two halves.

**The API server** (api/api.js, api/Errors.js, api/Routes.js):

- It runs the authorisation-code grant of section 4.1 of RFC 6749.
  - A browser presents a Google ID token with a PKCE challenge (the S256 method of RFC 7636) and receives a short-lived code.
  - It then exchanges that code and its code verifier for an RS256-signed access token and refresh token.
- Refresh tokens rotate: each refresh replaces the row of the presented token in the `refresh_tokens` table by a new token of the same family.
- Presenting a token whose row is gone is a replay, and it revokes the whole family.
- Logout revokes a family. Account creation files a new, enabled user.
- Every protected endpoint is wrapped in a gate that checks the bearer access token.
- Errors are six classes with fixed codes and statuses.

**The browser client** (app/src/lib/Auth.js, app/src/lib/HTTPClient.js, app/src/lib/Errors.js):

- It keeps the token pair in `localStorage` and the user in a `currentUser` store.
- It makes the PKCE verifier and its challenge, and logs in with two requests, then fetches the user.
- `authRequest` sends authenticated requests. It answers a 401 with one refresh and a retry, at most three attempts in all.
- `request` turns error answers into typed client errors.

## Modules

- `Common` holds options, results, bytes and 32-bit words.
- `Js` models the JavaScript built-ins the code leans on:
  - truthiness;
  - `Number.prototype.toString(radix)`;
  - `substring`, `split`, a global `replace` of one character, and `/c+$/` removal;
  - template-literal text of `undefined`;
  - prototype-property assignment;
  - `Error.prototype.toString`.
- `Base64` holds the `btoa`-and-replace challenge encoding as written. It also holds the unpadded base64url of section 5 of RFC 4648 as an independent reference, with a decoder.
- `Utf8` is `TextEncoder.encode`.
- `Pkce` holds the S256 transform, the server check and the client's verifier generation.
- `Tokens` holds JWTs signed with RS256 (section 3.3 of RFC 7518).
  - The signature is not computed: a token records its key, and verification succeeds only with that key and only before `exp`.
  - `Family` is `parent_token ?? jti`.
- `ApiErrors` and `ClientErrors` hold the two error taxonomies, including their `prototype.name` quirks.
- `AuthServer` holds the pure checks of `authorize` and `exchangeAuthCode`, and the ledger algebra with its invariant. Its class `Server` carries the three stores and one method per operation:
  - the authorisation-code cache;
  - `refresh_tokens`;
  - `users`.
- `Routes` is the endpoint gate.
- `HttpClient` is `request`, as a function of what `ky` reports.
- `ClientAuth` holds:
  - `refreshTokens` and `authRequest` as functions of the stored tokens and a transport;
  - `login` and `signInOrCreateAccount` as specification functions;
  - the class `Session`, with the stored tokens, `currentUser` and the history of requests sent, and one method per client operation.
- `ServerScenarios` runs several server operations in a row.
- `Interop` joins the two halves. It covers error answers read by the client, the gate's 401 seen by `authRequest`, and the client's challenge checked by the server.

## How the environment is modelled

- **Clock.** The clock is a parameter `nowMs`.
- **Identifiers.** `hyperid()` and `ulid()` draw from one counter, `Server.nextId`.
- **SHA-256.** SHA-256 is a parameter `sha` returning 32 bytes.
- **Google ID-token check.** The Google library's answer is a parameter `ticket`.
- **JWS text.** The decoding of a JWS text into a token is a parameter `decode`.
- **Network and server.** On the client side these are a transport: a function from the history of every request sent to what `ky` reports for the last one. So one model covers any server, stateful or not.
- **Signing.** Unforgeability of RS256 is stated as `Server.Genuine`: a token that verifies under the refresh key is one the server signed. `Server.signed` is a ghost record of the signed tokens. `Server.RefreshTokenPair` requires `Genuine` of its argument.

## Behaviours of the code that the model keeps

- **The session cap cannot fire.** The count in `generateTokenPair` filters on `user_id`, but rows are written with a field `user` (api/api.js:708, 722). The count therefore matches no row (`AuthServer.CapNeverReached`), and issuing always succeeds. Without `GROUP ALL` the query would in any case answer one `{count: 1}` row per matching record rather than a total (`AuthServer.CountQuery`).
- **Codes can be used more than once.** `exchangeAuthCode` reads the code cache and never deletes from it. `ServerScenarios.AuthCodeIsReusable` exchanges one code twice.
- **Rotation trusts the token.** Rotation takes the user from the token's payload, not from the ledger. The ledger invariant `AuthServer.LedgerTracks` shows that the two agree for genuine tokens.
- **The auth flag test is not what it reads.** `!'auth' in endpoint` parses as `false in endpoint`, which asks for a property named `"false"`. An endpoint without `auth` is therefore open (`Routes.EndpointWithoutAuthIsOpen`).
- **The Bearer scheme word is not checked.** Any word before the first space is accepted.
- **The server's name quirk.** `UnauthorizedError.prototype.name` ends up `ForbiddenError`, and `ForbiddenError` keeps the inherited `Error`.
- **The client's name quirk.** All three client `name` assignments target `HttpError`, whose name ends up `UserUnauthenticatedError`.
- **The verifier is longer than RFC 7636 allows.** `substring(-2)` keeps the whole chunk, so the code verifier is 56 to 252 hexadecimal characters. Section 4.1 of RFC 7636 allows 43 to 128.
- **A failed logout keeps the tokens.** A failed server-side logout leaves the client's tokens and cached user in place.
- **`login` resolves with the pair it stored.** It does so even when `fetchUser` refreshed that pair in the meantime.

## Model

| member | source | states |
|---|---|---|
| Js.NumberToString | app/src/lib/Auth.js:18 | `toString(radix)` is a non-empty string of base-`radix` digits with no leading zero |
| Js.NumberToStringRoundTrip | app/src/lib/Auth.js:18 | reading the printed digits back gives the number |
| Js.Uint32HexShape | app/src/lib/Auth.js:16-18 | a 32-bit word prints as 1 to 8 lower-case hex digits |
| Js.Substring | app/src/lib/Auth.js:18 | `substring` with a negative start returns the whole string |
| Js.Split | api/Routes.js:33 | `split` always yields at least one field |
| Js.SplitJoin | api/Routes.js:33 | joining the fields of a split with the separator gives the string back |
| Js.SplitFields | api/Routes.js:33 | no field contains the separator, and there is one field more than separators |
| Js.SplitNoSeparator | api/Routes.js:33 | a string without the separator splits into itself alone |
| Js.SplitAfterField | api/Routes.js:33 | the text before the first separator is the first field, the rest splits on |
| Js.ReplaceAllCounts | api/api.js:548 | replacing one character by another leaves none of it, adds its count to the other's, and keeps the count of every third character |
| Js.StripTrailing | api/api.js:548 | the result is a prefix that does not end in the character, and everything removed was that character |
| Js.PrototypePropertyMeaning | api/Errors.js:22-117 | a prototype property is inherited exactly when no assignment targets the class; otherwise it is the value of the last assignment to it |
| Js.NoWriteInherits | app/src/lib/Errors.js:19-46 | with no assignment to a class its property is inherited |
| Js.LastWriteWins | app/src/lib/Errors.js:19-46 | an assignment not overridden later gives the property's value |
| Js.ErrorToString | api/Errors.js:117 | the printed error starts with the name and ends with the message, with exactly two characters between them when both are non-empty and none otherwise |
| Base64.Sextets | api/api.js:548 | the 6-bit groups of `btoa`: `ceil(4n/3)` groups, each below 64 |
| Base64.Base64UrlNoPad | api/api.js:548 | the reference encoding has `ceil(4n/3)` characters, all from `A-Z a-z 0-9 - _` |
| Base64.Btoa | api/api.js:548 | `btoa` gives four characters per started group of three bytes, all from the standard alphabet except a `=` padding of at most two at the end |
| Base64.EncodeAsWritten | api/api.js:548 | `btoa` followed by the two replaces and the `=` strip equals unpadded base64url for every input |
| Base64.AsWrittenAlphabet | api/api.js:548 | the encoding as written uses only `A-Z a-z 0-9 - _`, has no `=`, and has `ceil(4n/3)` characters |
| Base64.Indices | api/api.js:548 | decoding the alphabet keeps the length and yields values below 64 |
| Base64.DecodeEncode | api/api.js:548 | decoding the reference encoding gives the bytes back |
| Base64.EncodingInjective | api/api.js:548 | two byte strings with the same encoding are equal |
| Utf8.EncodeChar | api/api.js:543-544 | a character encodes to 1 to 4 bytes, and to its own code exactly when it is ASCII |
| Utf8.Encode | api/api.js:543-544 | a string of n characters encodes to n to 4n bytes |
| Utf8.EncodeAscii | app/src/lib/Auth.js:22-23 | an ASCII string, such as the hex verifier, encodes to its character codes |
| Pkce.S256 | app/src/lib/Auth.js:21-31 | `getChallengeFromVerifier` is the unpadded base64url text of the SHA-256 digest of the verifier's UTF-8 bytes |
| Pkce.ChallengeShape | app/src/lib/Auth.js:21-31 | every challenge is 43 characters from `A-Z a-z 0-9 - _`, with no `=` |
| Pkce.VerifyPkceChallenge | api/api.js:541-555 | the check passes iff the challenge is the unpadded base64url of SHA-256 of the verifier's UTF-8 bytes |
| Pkce.AcceptedChallengeIsDigest | api/api.js:541-555 | an accepted challenge decodes to the verifier's digest |
| Pkce.ChallengeBindsDigest | api/api.js:541-555 | two verifiers accepted for one challenge have the same digest |
| Pkce.PkceRoundTrip | app/src/lib/Auth.js:21-31 | the client's challenge of a verifier passes the server's check for that verifier |
| Pkce.ChunkShape | app/src/lib/Auth.js:18 | each chunk is `'0'` plus the word's hex digits, 2 to 9 hex characters, not truncated by `substring(-2)` |
| Pkce.ChunkValue | app/src/lib/Auth.js:18 | each chunk read as hex is the random word it came from |
| Pkce.CodeVerifier | app/src/lib/Auth.js:15-19 | the chunks of n words, joined, are 2n to 9n lower-case hex characters |
| Pkce.GeneratedVerifierShape | app/src/lib/Auth.js:15-19 | the 28 words of `generateCodeVerifier` give 56 to 252 hex characters |
| Tokens.Sign | api/api.js:689-705 | a signed token carries its key and claims, and `exp - iat` is the configured lifetime |
| Tokens.Verify | api/api.js:744-749 | a successful verification returns the token's own claims |
| Tokens.SignThenVerify | api/api.js:689-705 | a token verifies with its own key iff the clock is before its expiry |
| Tokens.KeySeparation | api/api.js:562-566 | a token verifies under at most one key, so access and refresh tokens are not interchangeable |
| Tokens.ExpiryIsFinal | api/api.js:844-848 | an expired token never verifies again |
| Tokens.FreshTokenVerifies | api/api.js:689-705 | a token with a positive lifetime verifies, with its claims, when it is signed |
| Tokens.Family | api/api.js:754 | a refresh token's family is its `parent_token` when present and its `jti` otherwise; an access token has none |
| ApiErrors.NewError | api/Errors.js:9-116 | the constructor keeps a truthy message verbatim and replaces a falsy one with the class default |
| ApiErrors.Raise | api/Errors.js:9-116 | an error built with a given message has that message |
| ApiErrors.StatusAndCodeInjective | api/Errors.js:9-116 | distinct classes have distinct statuses and distinct codes |
| ApiErrors.ConstructorTextFields | api/Errors.js:15 | the text given to `super` is the code, ` (`, the three-digit status, `): ` and the message, each readable back |
| ApiErrors.NamesAfterLoad | api/Errors.js:22-117 | after loading, four classes have their own names, `UnauthorizedError` is named `ForbiddenError`, and `ForbiddenError` inherits `Error` |
| ApiErrors.UnauthorizedPrintsAsForbidden | api/Errors.js:98-117 | a printed `UnauthorizedError` starts with `ForbiddenError` |
| ClientErrors.GivenMeansTruthy | app/src/lib/Errors.js:10 | a message argument counts as given exactly when its text is non-empty |
| ClientErrors.NewHttpError | app/src/lib/Errors.js:8-18 | status and code are passed through; a falsy message becomes the HTTP-response default |
| ClientErrors.NewHttpClientError | app/src/lib/Errors.js:24-32 | a falsy message becomes `An unknown error occurred.` and the inner error's name is kept |
| ClientErrors.NewUserUnauthenticated | app/src/lib/Errors.js:38-45 | a falsy message becomes the unauthenticated default |
| ClientErrors.ConstructorTextEndsWithMessage | app/src/lib/Errors.js:11-41 | each class's `super` text ends with the error's message |
| ClientErrors.NamesAfterLoad | app/src/lib/Errors.js:19-46 | after loading, `HttpError` is named `UserUnauthenticatedError` and the other two classes inherit `Error` |
| HttpClient.ClassifyErrorBody | app/src/lib/HTTPClient.js:15-33 | code and message are kept; a message without code gets `E_HTTP`; any other body gets `E_HTTP` with the unknown-error text; a non-JSON or `null` body throws a runtime error |
| HttpClient.Request | app/src/lib/HTTPClient.js:10-40 | success iff `ky` delivered; an HTTP failure keeps its status; any other failure is an `HttpClientError` |
| HttpClient.WithBearer | app/src/lib/HTTPClient.js:55-60 | method and body are kept and the headers are replaced by exactly `Authorization: Bearer <token>` |
| Routes.Gate | api/Routes.js:22-51 | an unguarded endpoint proceeds with no user, and only it does; every rejection is 401 with one message; an admitted user comes from a verified bearer token |
| Routes.MissingHeaderRejected | api/Routes.js:23-31 | a guarded endpoint without a truthy `Authorization` header is rejected with 401 |
| Routes.HeaderWithoutSpaceRejected | api/Routes.js:33-46 | a header without a space has no token and is rejected with 401 |
| Routes.BearerTokenOf | api/Routes.js:33 | the token is the field after the first space, whatever the scheme word |
| Routes.ValidTokenAdmitted | api/Routes.js:36-51 | a valid access token admits the handler with `auth_user = {id}` |
| Routes.RefreshTokenRejected | api/Routes.js:36-46 | a refresh token presented as bearer token is rejected with 401 |
| Routes.EndpointWithoutAuthIsOpen | api/Routes.js:23-49 | an endpoint without `auth: true` runs with `auth_user = null` and no header check |
| AuthServer.VerifyGoogleIdToken | api/api.js:481-500 | fails Unauthorized iff the library rejects the token; otherwise the profile fields come from the payload, with `pfp` present only when truthy |
| AuthServer.VerifyAccessToken | api/api.js:561-575 | succeeds iff the token verifies under the access key, with `{id}` from its claims; otherwise Unauthorized |
| AuthServer.AuthorizeCheck | api/api.js:584-617 | the four failures in source order (unregistered client, bad ID token, no account, disabled); success iff none applies, with the account |
| AuthServer.ExchangeCheck | api/api.js:646-669 | the failures in source order (missing or expired code, wrong client, failed PKCE); success iff none applies, with the cached record |
| AuthServer.CapNeverReached | api/api.js:706-718 | the cap count filters on a field no row has, so the cap never rejects |
| AuthServer.IssueOutcome | api/api.js:689-736 | the tail of `generateTokenPair` always issues a pair, because the cap never fires; both tokens carry the user and the refresh token opens the family `rtid` |
| AuthServer.IssueOutcomeMeaning | api/api.js:684-737 | issuing succeeds; both tokens carry the user; the refresh token opens family `rtid`; each verifies only under its own key and only within its lifetime |
| AuthServer.WithoutFamily | api/api.js:828-837 | revocation deletes exactly the rows of the family and leaves every other row unchanged |
| AuthServer.WithoutFamilyKeepsOnePerFamily | api/api.js:828-837 | revocation keeps the one-token-per-family invariant and leaves no row of the family |
| AuthServer.RotateKeepsOnePerFamily | api/api.js:798-809 | replacing a family's row by a fresh row of the same family keeps one token per family |
| AuthServer.RotateKeepsSize | api/api.js:798-809 | rotation keeps the number of rows |
| AuthServer.StaleReplayRevokesSibling | api/api.js:757-769 | revoking the family of a replayed token removes the newer token of that family |
| AuthServer.TracksAfterFreshId | api/api.js:697 | drawing an identifier keeps the ledger invariant |
| AuthServer.TracksBelowNext | api/api.js:697-727 | every row and its family have identifiers already drawn |
| AuthServer.TracksAfterIssue | api/api.js:722-727 | inserting a new family's first row keeps the invariant; its id was not in the ledger |
| AuthServer.TracksAfterRevoke | api/api.js:830 | revoking a family keeps the invariant |
| AuthServer.TracksAfterRotate | api/api.js:779-809 | rotating a tracked token keeps the invariant; the new row has the old row's user and family |
| AuthServer.Rotated | api/api.js:754-809 | the rotated refresh token has the old token's family, as `parent_token: parentToken` makes it |
| AuthServer.RotationKeepsValid | api/api.js:779-809 | the rotation step keeps the server invariant and only adds to the signed tokens |
| AuthServer.RotationOutcome | api/api.js:779-809 | the rotation step has the outcome `Rotated` describes: same user and family, next id, ledger size kept |
| AuthServer.Server.constructor | api/api.js:46-50 | a new server has empty stores and satisfies its invariant |
| AuthServer.Server.FreshId | api/api.js:697 | returns the next identifier and advances the counter |
| AuthServer.Server.Authorize | api/api.js:584-638 | on failure no code is stored; on success exactly one record is added under a fresh code, with the account's id, the challenge, the client and `now + ttl*1000` |
| AuthServer.Server.GenerateTokenPair | api/api.js:684-737 | returns the issued pair and inserts exactly one row with `id = parent_token_id = rtid`; on failure nothing is inserted |
| AuthServer.Server.ExchangeAuthCode | api/api.js:646-678 | the code cache is never changed; on a failed check nothing changes; otherwise a pair is issued for the code's user |
| AuthServer.Server.RevokeTokenFamily | api/api.js:828-837 | the ledger becomes `WithoutFamily` of the family |
| AuthServer.Server.RefreshTokenPair | api/api.js:743-822 | an invalid token fails with no change; a verified token without a row revokes its family and fails; a verified token with a row is rotated as `Rotated` says |
| AuthServer.Server.RotateRefreshToken | api/api.js:779-809 | the new pair and ledger are those `Rotated` describes, and the invariant holds |
| AuthServer.Server.Logout | api/api.js:843-863 | fails Unauthorized iff the token does not verify (including when expired); otherwise revokes `parent_token ?? jti` |
| AuthServer.Server.CreateUser | api/api.js:872-923 | a rejected token or an existing account fails with nothing inserted; otherwise exactly one enabled user is filed under its Google id |
| AuthServer.Server.CreateUserAndLogin | api/api.js:928-938 | the failures of `createUser` change nothing; otherwise the enabled account exists and the pair is issued for its id |
| AuthServer.CreatedUserPassesAuthorize | api/api.js:601-617 | a freshly filed enabled account passes `authorize`'s account and disabled checks |
| ServerScenarios.AuthCodeIsReusable | api/api.js:646-678 | one authorisation code exchanged twice yields two pairs of different families |
| ServerScenarios.ReplayRevokesRotatedToken | api/api.js:743-822 | after a rotation, replaying the old token fails and the token issued by the rotation fails too; no row of the family remains |
| ClientAuth.RefreshOutcome | app/src/lib/Auth.js:120-157 | no tokens: fails before any request; otherwise one refresh request; success stores the answered pair; a 401 becomes `UserUnauthenticatedError`; other errors pass unchanged with the tokens kept |
| ClientAuth.Attempt | app/src/lib/HTTPClient.js:49-78 | without tokens it fails with no request; a retry follows a 401 and a delivered refresh; a finished pass never ends in a 401 and succeeds only with the answer to its one request |
| ClientAuth.AttemptPropagates | app/src/lib/HTTPClient.js:63-78 | a non-401 answer is the outcome unchanged, a failed refresh's error is the outcome, and a retry happens iff a 401 is followed by a delivered refresh |
| ClientAuth.AuthRun | app/src/lib/HTTPClient.js:42-79 | `authRequest` from a given attempt sends at most two requests per attempt left, and a success leaves tokens stored |
| ClientAuth.AuthRunRetry | app/src/lib/HTTPClient.js:64-74 | a retrying attempt is followed by the run from the next attempt with the refreshed tokens |
| ClientAuth.AuthRunFinishes | app/src/lib/HTTPClient.js:54-77 | an attempt that does not retry is the whole run |
| ClientAuth.AuthRunAlternates | app/src/lib/HTTPClient.js:42-79 | at most 3 authenticated requests and 3 refreshes, alternating, authenticated first |
| ClientAuth.BearerIsAuthenticated | app/src/lib/HTTPClient.js:55-60 | each attempt's request carries the caller's method and body and only a Bearer header |
| ClientAuth.FirstAttemptCarriesStoredToken | app/src/lib/HTTPClient.js:49-60 | the first request carries the stored access token |
| ClientAuth.RefreshOnlyAfterUnauthorized | app/src/lib/HTTPClient.js:63-74 | every refresh comes right after an authenticated request answered 401 |
| ClientAuth.RetryCarriesRefreshedToken | app/src/lib/HTTPClient.js:49-74 | every retry carries the access token the refresh before it returned |
| ClientAuth.UnauthorizedOnlyAfterRetries | app/src/lib/HTTPClient.js:44-74 | from any attempt, a 401 result means two requests per attempt left, the last a refresh that was answered, and the error is the answer to the authenticated request before it |
| ClientAuth.UnauthorizedAfterThreeAttempts | app/src/lib/HTTPClient.js:44-74 | from the first attempt, a 401 result means six requests: three authenticated requests each answered 401, each followed by a delivered refresh, and the error thrown is the third one's answer |
| ClientAuth.SuccessIsLastAnswer | app/src/lib/HTTPClient.js:54-62 | a success is the answer to the last request, an attempt with the tokens left stored |
| ClientAuth.StoredTokensSendRequest | app/src/lib/HTTPClient.js:49-60 | with tokens stored at least one request is sent |
| ClientAuth.NoTokensNoRequest | app/src/lib/HTTPClient.js:49-52 | without tokens it throws `UserUnauthenticatedError` and sends nothing |
| ClientAuth.LoginRun | app/src/lib/Auth.js:47-85 | `login` sends one to eight requests, and a login that resolves leaves tokens stored |
| ClientAuth.LoginSendsChallengeThenVerifier | app/src/lib/Auth.js:47-70 | authorize is sent first with the verifier's challenge; tokens are asked for iff it succeeded, with the answered code, the same client and a verifier the server accepts for that challenge |
| ClientAuth.LoginResolvesWithIssuedPair | app/src/lib/Auth.js:72-84 | a resolved login returns the issued pair; a failure before fetching the user leaves the session unchanged |
| ClientAuth.LoginFetchesWithIssuedToken | app/src/lib/Auth.js:78-79 | with no cached user, the user is fetched with the access token just issued |
| ClientAuth.SignInRun | app/src/lib/Auth.js:88-101 | `signInOrCreateAccount` sends one to nine requests, and resolving with a pair leaves tokens stored |
| ClientAuth.SignInCreatesThenLogsIn | app/src/lib/Auth.js:88-101 | account creation is sent first; the alert path, leaving the session unchanged, is taken iff it failed other than with a 409; otherwise login starts |
| ClientAuth.Session.constructor | app/src/lib/Auth.js:11 | a page load starts with `currentUser = null` and the stored tokens |
| ClientAuth.Session.GetTokens | app/src/lib/Auth.js:160-162 | returns the stored tokens |
| ClientAuth.Session.SetTokens | app/src/lib/Auth.js:165-168 | the stored tokens become the value, `null` removing them |
| ClientAuth.Session.Send | app/src/lib/HTTPClient.js:10-12 | the request is appended to the history and answered as `Request` says |
| ClientAuth.Session.RefreshTokens | app/src/lib/Auth.js:120-157 | tokens, result and requests are those of `RefreshOutcome` |
| ClientAuth.Session.AttemptOnce | app/src/lib/HTTPClient.js:49-78 | the result is `Attempt`; tokens change only on a retry, to the refreshed pair |
| ClientAuth.Session.AuthRequest | app/src/lib/HTTPClient.js:42-79 | the loop's tokens, result and requests are those of `AuthRun` from attempt 1 |
| ClientAuth.Session.CreateAccount | app/src/lib/Auth.js:35-44 | one create-account request, answered as `Request` says |
| ClientAuth.Session.FetchUser | app/src/lib/Auth.js:104-117 | a cached user is returned with no request; otherwise `authRequest` to `/auth/user` sets `currentUser` from the answer |
| ClientAuth.Session.Login | app/src/lib/Auth.js:47-85 | the new state and result are those of `LoginRun` for the verifier of the 28 words |
| ClientAuth.Session.SignInOrCreateAccount | app/src/lib/Auth.js:88-101 | the new state and result are those of `SignInRun` |
| ClientAuth.Session.Logout | app/src/lib/Auth.js:171-190 | no tokens: throws with no request; otherwise one logout request; on success tokens and user are cleared; on failure both are kept |
| Interop.ServerErrorReachesClient | api/endpoints/auth-create_account.js:24-29 | a server error answer reaches the client as an `HttpError` with the server's status, code and message; it is a 401 iff the error is `Unauthorized` |
| Interop.GateRejectionIsRetried | api/Routes.js:41-45 | the gate's rejection reaches the client as a 401 `E_HTTP` error, which triggers a refresh |
| Interop.DuplicateAccountLeadsToLogin | app/src/lib/Auth.js:92-100 | sign-in proceeds to login after a failed creation iff the server refused with `ResourceExists` |
| Interop.LoginChallengeAccepted | app/src/lib/Auth.js:49-68 | the verifier login sends passes the server's exchange check for the challenge it sent; a verifier with another digest is refused |

## Left out

- **Database, internal errors and other services.**
  - Database failures are not modelled: the `InternalServerError` paths of every operation, and the promise that never settles when a query fails inside a `jwt.verify` callback.
  - The LLM client, `API.data.*`, password hashing and Turnstile are not part of this model.
- **Concurrency.** The model is sequential: the count-then-insert and exists-then-rotate races are not modelled.
- **Cache expiry.** NodeCache's background expiry is not modelled. Expiry is the explicit `expires` check.
- **Cryptography.**
  - SHA-256 and the RS256 signature are black boxes: `sha` is a parameter, and `Server.Genuine` is the unforgeability assumption.
  - JWS decoding is the parameter `decode`. Key loading is not modelled.
- **Identifiers.** `hyperid()` and `ulid()` are one counter, so their formats are not modelled.
- **Randomness.** `crypto.getRandomValues` is the parameter `words`.
- **Storage and JSON.**
  - JSON and `localStorage` serialisation are not modelled: stored tokens are kept as a value.
  - JSON fields other than strings where strings are expected are not modelled.
- **UTF-8.** Lone surrogates are not encoded as U+FFFD: characters are taken to be scalar values.
- **Endpoint handlers.** The handlers under api/endpoints are modelled only by the shape of their error answer (`Interop.ErrorAnswer`). Their body checks and the routing loop of `setup` are not modelled.
- **Messages and output.** Messages are named texts (`ApiErrors.Message`, `ClientErrors.Message`). Console output and the `alert` are not modelled.
- AuthServer.Server.RefreshTokenPair: requires `Genuine` of the presented token. The model does not compute signatures, so it needs the assumption that a token verifying under the refresh key was signed by this server; the source gets the same guarantee from RS256.
- AuthServer.Server.RotateRefreshToken: requires `Genuine` of the presented token, for the same reason.
- ClientAuth.Session.Login: takes the 28 random words as a parameter and requires exactly 28, as `generateCodeVerifier` always draws.
