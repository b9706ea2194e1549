/**
 * The server's authentication core (`API.accounts.auth` and
 * `API.accounts.createUser*` in api/api.js): the authorisation-code grant of
 * section 4.1 of RFC 6749 with PKCE, refresh-token rotation with family
 * revocation, logout and account creation, over three keyed stores: the
 * authorisation-code cache, the `refresh_tokens` table and the `users`
 * table. Identifiers from `hyperid()` and `ulid()` come from one counter,
 * the clock is a parameter, and Google ID-token verification is an oracle
 * whose answer is passed in.
 */
module AuthServer {
  import opened Common
  import opened Js
  import opened ApiErrors
  import opened Tokens
  import Pkce

  /** The `auth` part of config.json. Durations are in seconds. */
  datatype Config = Config(
    clientIds: seq<string>,
    authCodeTtl: nat,
    accessTokenDuration: nat,
    refreshTokenDuration: nat,
    activeRefreshTokens: nat)

  /** A value in the authorisation-code cache; `expires` is in milliseconds. */
  datatype AuthCodeRecord = AuthCodeRecord(clientId: string, userId: Id, codeChallenge: string, expires: int)

  /** A row of `refresh_tokens` (its key is the token's `jti`); `issuedAt` is in seconds. */
  datatype LedgerEntry = LedgerEntry(user: Id, parentTokenId: Id, issuedAt: int)

  /** A row of `users` (its key is the Google account id). */
  datatype UserRecord = UserRecord(
    id: Id, googleId: string, fullName: string, email: string,
    pfp: Option<string>, joinedAt: int, disabled: bool)

  /** The payload of a Google ID token that the Google client library accepted. */
  datatype GooglePayload = GooglePayload(sub: string, email: string, name: string, picture: Option<string>)

  /** What `verifyGoogleIdToken` returns. */
  datatype Profile = Profile(id: string, email: string, name: string, pfp: Option<string>)

  datatype TokenPair = TokenPair(accessToken: Jwt, refreshToken: Jwt)

  /** The `{id}` that `verifyAccessToken` resolves with. */
  datatype AuthUser = AuthUser(id: Id)

  // ---------------------------------------------------------------------------
  // Pure decisions

  /**
   * `verifyGoogleIdToken`: `ticket` is the library's answer for the given
   * token and audience (None when it rejects the token).
   */
  function VerifyGoogleIdToken(ticket: Option<GooglePayload>): (r: Result<Profile, ApiError>)
    ensures ticket.None? <==> r.Err?
    ensures r.Err? ==> r.error == ApiError(Unauthorized, InvalidIdToken)
    ensures r.Ok? ==>
      (r.value.id == ticket.value.sub && r.value.email == ticket.value.email && r.value.name == ticket.value.name
       && (if Truthy(ticket.value.picture) then r.value.pfp == ticket.value.picture else r.value.pfp.None?))
  {
    match ticket
    case None => Err(Raise(Unauthorized, InvalidIdToken))
    case Some(p) => Ok(Profile(p.sub, p.email, p.name, if Truthy(p.picture) then p.picture else None))
  }

  /**
   * `verifyAccessToken`: `token` is the decoded token handed to
   * `jwt.verify`, None when it is missing or not a JWT at all.
   */
  function VerifyAccessToken(token: Option<Jwt>, nowMs: nat): (r: Result<AuthUser, ApiError>)
    ensures r.Ok? <==> token.Some? && Verify(token.value, AccessKey, nowMs).Some?
    ensures r.Ok? ==> r.value == AuthUser(token.value.claims.id)
    ensures r.Err? ==> r.error == ApiError(Unauthorized, BadAccessToken)
  {
    if token.Some? && Verify(token.value, AccessKey, nowMs).Some? then Ok(AuthUser(token.value.claims.id))
    else Err(Raise(Unauthorized, BadAccessToken))
  }

  /**
   * The checks of `authorize`, in source order: a registered client, an
   * accepted ID token, an existing account, an account that is not
   * disabled. The result is the account.
   */
  function AuthorizeCheck(config: Config, users: map<string, UserRecord>, ticket: Option<GooglePayload>, clientId: string)
    : (r: Result<UserRecord, ApiError>)
    ensures clientId !in config.clientIds ==> r == Err(ApiError(Unauthorized, UnregisteredClient))
    ensures clientId in config.clientIds && ticket.None? ==>
      r == Err(ApiError(Unauthorized, MalformedIdToken))
    ensures clientId in config.clientIds && ticket.Some? && ticket.value.sub !in users ==>
      r == Err(ApiError(Unauthorized, NoSuchAccount))
    ensures clientId in config.clientIds && ticket.Some? && ticket.value.sub in users && users[ticket.value.sub].disabled ==>
      r == Err(ApiError(Unauthorized, AccountDisabled))
    ensures r.Ok? <==> clientId in config.clientIds && ticket.Some? && ticket.value.sub in users && !users[ticket.value.sub].disabled
    ensures r.Ok? ==> r.value == users[ticket.value.sub]
  {
    if clientId !in config.clientIds then Err(Raise(Unauthorized, UnregisteredClient))
    else match VerifyGoogleIdToken(ticket)
      case Err(_) => Err(Raise(Unauthorized, MalformedIdToken))
      case Ok(profile) =>
        if profile.id !in users then Err(Raise(Unauthorized, NoSuchAccount))
        else if users[profile.id].disabled then Err(Raise(Unauthorized, AccountDisabled))
        else Ok(users[profile.id])
  }

  /**
   * The checks of `exchangeAuthCode`, in source order: the code is cached and
   * not expired, it was issued to this client, the verifier matches its
   * challenge. The result is the cached record.
   */
  function ExchangeCheck(cache: map<Id, AuthCodeRecord>, authCode: Id, codeVerifier: string, clientId: string,
                         nowMs: nat, sha: Pkce.Sha256): (r: Result<AuthCodeRecord, ApiError>)
    ensures authCode !in cache || nowMs >= cache[authCode].expires ==>
      r == Err(ApiError(Unauthorized, BadAuthCode))
    ensures authCode in cache && nowMs < cache[authCode].expires && cache[authCode].clientId != clientId ==>
      r == Err(ApiError(Unauthorized, UnknownClient))
    ensures (authCode in cache && nowMs < cache[authCode].expires && cache[authCode].clientId == clientId
             && !Pkce.VerifyPkceChallenge(cache[authCode].codeChallenge, codeVerifier, sha)) ==>
      r == Err(ApiError(Unauthorized, ChallengeFailed))
    ensures r.Ok? <==>
      (authCode in cache && nowMs < cache[authCode].expires && cache[authCode].clientId == clientId
       && Pkce.VerifyPkceChallenge(cache[authCode].codeChallenge, codeVerifier, sha))
    ensures r.Ok? ==> r.value == cache[authCode]
  {
    if authCode !in cache || nowMs >= cache[authCode].expires then
      Err(Raise(Unauthorized, BadAuthCode))
    else if cache[authCode].clientId != clientId then Err(Raise(Unauthorized, UnknownClient))
    else if !Pkce.VerifyPkceChallenge(cache[authCode].codeChallenge, codeVerifier, sha) then
      Err(Raise(Unauthorized, ChallengeFailed))
    else Ok(cache[authCode])
  }

  // ---------------------------------------------------------------------------
  // The session cap

  /** The `user_id` field of a ledger row. Rows are written with a field `user`, never `user_id`. */
  function UserIdField(e: LedgerEntry): Option<Id> {
    None
  }

  /**
   * `SELECT count() AS count FROM refresh_tokens WHERE user_id = $user`, as
   * the `count` of each answered row. Without `GROUP ALL` the query answers
   * one `{count: 1}` row per matching record, not one row with the total.
   */
  function CountQuery(ledger: map<Id, LedgerEntry>, userId: Id): seq<nat> {
    var n := |set k | k in ledger && UserIdField(ledger[k]) == Some(userId)|;
    seq(n, _ => 1)
  }

  /** `recordCount[0][0] && recordCount[0][0].count >= active_refresh_tokens`. */
  predicate CapReached(ledger: map<Id, LedgerEntry>, userId: Id, cap: nat) {
    var rows := CountQuery(ledger, userId);
    |rows| > 0 && rows[0] >= cap
  }

  /** The count matches no row whatever the ledger holds, so the cap never rejects a login. */
  lemma CapNeverReached(ledger: map<Id, LedgerEntry>, userId: Id, cap: nat)
    ensures !CapReached(ledger, userId, cap)
  {
    var matching := set k | k in ledger && UserIdField(ledger[k]) == Some(userId);
    assert matching == {};
  }

  /**
   * The last step of `generateTokenPair` as a decision: Forbidden when the
   * cap is reached, otherwise the access token `{id}` and the refresh token
   * `{id, parent_token: null}` with `jti = rtid`. The cap never fires, so
   * a pair is always issued, and its refresh token opens the family `rtid`.
   */
  function IssueOutcome(config: Config, ledger: map<Id, LedgerEntry>, userId: Id, rtid: Id, nowMs: nat)
    : (r: Result<TokenPair, ApiError>)
    ensures r.Ok? && Family(r.value.refreshToken.claims) == Some(rtid)
    ensures r.Ok? && r.value.accessToken.claims == AccessClaims(userId) && r.value.refreshToken.claims.id == userId
  {
    CapNeverReached(ledger, userId, config.activeRefreshTokens);
    if CapReached(ledger, userId, config.activeRefreshTokens) then
      Err(ApiError(Forbidden, TooManyDevices))
    else
      Ok(TokenPair(
        Sign(AccessKey, AccessClaims(userId), nowMs, config.accessTokenDuration),
        Sign(RefreshKey, RefreshClaims(userId, None, rtid), nowMs, config.refreshTokenDuration)))
  }

  /**
   * Issuing always succeeds; both tokens carry the user's id, the refresh
   * token opens a new family named by its own `jti`, and each verifies with
   * its own key while its lifetime lasts.
   */
  lemma IssueOutcomeMeaning(config: Config, ledger: map<Id, LedgerEntry>, userId: Id, rtid: Id, nowMs: nat, laterMs: nat)
    ensures var r := IssueOutcome(config, ledger, userId, rtid, nowMs);
      r.Ok? && r.value.accessToken.claims == AccessClaims(userId)
      && r.value.refreshToken.claims.RefreshClaims? && r.value.refreshToken.claims.id == userId
      && r.value.refreshToken.claims.jti == rtid && Family(r.value.refreshToken.claims) == Some(rtid)
      && (Verify(r.value.accessToken, AccessKey, laterMs).Some?
          <==> Seconds(laterMs) < Seconds(nowMs) + config.accessTokenDuration)
      && (Verify(r.value.refreshToken, RefreshKey, laterMs).Some?
          <==> Seconds(laterMs) < Seconds(nowMs) + config.refreshTokenDuration)
      && Verify(r.value.accessToken, RefreshKey, laterMs).None?
      && Verify(r.value.refreshToken, AccessKey, laterMs).None?
  {
    CapNeverReached(ledger, userId, config.activeRefreshTokens);
  }

  // ---------------------------------------------------------------------------
  // The ledger

  /** No two rows of the ledger share a `parent_token_id`: one live token per family. */
  predicate OnePerFamily(ledger: map<Id, LedgerEntry>) {
    forall a, b :: a in ledger && b in ledger && ledger[a].parentTokenId == ledger[b].parentTokenId ==> a == b
  }

  /** `DELETE refresh_tokens WHERE parent_token_id = $id`. */
  function WithoutFamily(ledger: map<Id, LedgerEntry>, family: Id): (r: map<Id, LedgerEntry>)
    ensures forall k :: k in r <==> k in ledger && ledger[k].parentTokenId != family
    ensures forall k :: k in r ==> r[k] == ledger[k]
  {
    map k | k in ledger && ledger[k].parentTokenId != family :: ledger[k]
  }

  /** The rotation transaction: `DELETE $old_id; CREATE ... SET id = $id`. */
  function Rotate(ledger: map<Id, LedgerEntry>, oldId: Id, newId: Id, entry: LedgerEntry): map<Id, LedgerEntry> {
    (ledger - {oldId})[newId := entry]
  }

  /** Revocation keeps one token per family and leaves none of the revoked family. */
  lemma WithoutFamilyKeepsOnePerFamily(ledger: map<Id, LedgerEntry>, family: Id)
    requires OnePerFamily(ledger)
    ensures OnePerFamily(WithoutFamily(ledger, family))
    ensures forall k :: k in WithoutFamily(ledger, family) ==> WithoutFamily(ledger, family)[k].parentTokenId != family
  {
  }

  /**
   * Rotating the live token of a family into a fresh id, within the same
   * family, keeps one token per family.
   */
  lemma RotateKeepsOnePerFamily(ledger: map<Id, LedgerEntry>, oldId: Id, newId: Id, entry: LedgerEntry)
    requires OnePerFamily(ledger) && oldId in ledger && newId !in ledger
    requires entry.parentTokenId == ledger[oldId].parentTokenId
    ensures OnePerFamily(Rotate(ledger, oldId, newId, entry))
  {
    var r := Rotate(ledger, oldId, newId, entry);
    forall a, b | a in r && b in r && r[a].parentTokenId == r[b].parentTokenId ensures a == b {
      assert a != newId ==> r[a] == ledger[a];
      assert b != newId ==> r[b] == ledger[b];
    }
  }

  /** Rotation replaces one row by another: the ledger keeps its size. */
  lemma RotateKeepsSize(ledger: map<Id, LedgerEntry>, oldId: Id, newId: Id, entry: LedgerEntry)
    requires oldId in ledger && newId !in ledger
    ensures |Rotate(ledger, oldId, newId, entry)| == |ledger|
  {
    var r := Rotate(ledger, oldId, newId, entry);
    assert r.Keys == ledger.Keys - {oldId} + {newId};
    assert |ledger.Keys - {oldId}| == |ledger.Keys| - 1;
    assert |r.Keys| == |ledger.Keys - {oldId}| + 1;
  }

  /**
   * Replaying a refresh token whose row is gone revokes its family; a newer
   * token of that family still in the ledger is revoked with it, so its own
   * rotation will find no row.
   */
  lemma StaleReplayRevokesSibling(ledger: map<Id, LedgerEntry>, staleJti: Id, family: Id, siblingJti: Id)
    requires staleJti !in ledger && siblingJti in ledger && ledger[siblingJti].parentTokenId == family
    ensures siblingJti !in WithoutFamily(ledger, family)
    ensures forall k :: k in WithoutFamily(ledger, family) ==> WithoutFamily(ledger, family)[k].parentTokenId != family
  {
  }

  /** A signed refresh token: its key, its payload shape, and a family no younger than itself. */
  predicate WellFormed(jti: Id, t: Jwt) {
    t.key == RefreshKey && t.claims.RefreshClaims? && t.claims.jti == jti
    && Family(t.claims).Some? && Family(t.claims).value <= jti
  }

  /**
   * The ledger against the tokens signed so far (`signed`, by `jti`), with
   * `nextId` the next identifier: every row belongs to a signed token and
   * records that token's effective family (`parent_token ?? jti`) and user,
   * and each family has at most one row.
   */
  predicate LedgerTracks(ledger: map<Id, LedgerEntry>, signed: map<Id, Jwt>, nextId: nat) {
    (forall j :: j in signed ==> j < nextId && WellFormed(j, signed[j]))
    && (forall j :: j in ledger ==>
          (j in signed && Some(ledger[j].parentTokenId) == Family(signed[j].claims)
           && ledger[j].user == signed[j].claims.id))
    && OnePerFamily(ledger)
  }

  /** Drawing an identifier keeps the invariant. */
  lemma TracksAfterFreshId(ledger: map<Id, LedgerEntry>, signed: map<Id, Jwt>, nextId: nat)
    requires LedgerTracks(ledger, signed, nextId)
    ensures LedgerTracks(ledger, signed, nextId + 1)
  {
  }

  /** Every row of the ledger has an identifier below `nextId`, and so has its family. */
  lemma TracksBelowNext(ledger: map<Id, LedgerEntry>, signed: map<Id, Jwt>, nextId: nat)
    requires LedgerTracks(ledger, signed, nextId)
    ensures forall j :: j in ledger ==> j < nextId && ledger[j].parentTokenId < nextId
  {
    forall j | j in ledger ensures j < nextId && ledger[j].parentTokenId < nextId {
      assert WellFormed(j, signed[j]);
    }
  }

  /** Issuing a token that opens the family `rtid == nextId` keeps the invariant. */
  lemma TracksAfterIssue(ledger: map<Id, LedgerEntry>, signed: map<Id, Jwt>, rtid: nat, t: Jwt, entry: LedgerEntry)
    requires LedgerTracks(ledger, signed, rtid)
    requires t.key == RefreshKey && t.claims == RefreshClaims(entry.user, None, rtid) && entry.parentTokenId == rtid
    ensures rtid !in ledger
    ensures LedgerTracks(ledger[rtid := entry], signed[rtid := t], rtid + 1)
  {
    TracksBelowNext(ledger, signed, rtid);
    var l := ledger[rtid := entry];
    forall a, b | a in l && b in l && l[a].parentTokenId == l[b].parentTokenId ensures a == b {
      assert a != rtid ==> l[a] == ledger[a];
      assert b != rtid ==> l[b] == ledger[b];
    }
  }

  /** Revoking a family keeps the invariant. */
  lemma TracksAfterRevoke(ledger: map<Id, LedgerEntry>, signed: map<Id, Jwt>, nextId: nat, family: Id)
    requires LedgerTracks(ledger, signed, nextId)
    ensures LedgerTracks(WithoutFamily(ledger, family), signed, nextId)
  {
    WithoutFamilyKeepsOnePerFamily(ledger, family);
  }

  /**
   * Rotating the row of a signed token into a new token of the same user
   * and family, under the identifier `rtid == nextId`, keeps the invariant;
   * the new row has the old row's user and family.
   */
  lemma TracksAfterRotate(ledger: map<Id, LedgerEntry>, signed: map<Id, Jwt>, rtid: nat, prev: Jwt, t: Jwt, entry: LedgerEntry)
    requires LedgerTracks(ledger, signed, rtid)
    requires prev.claims.RefreshClaims? && prev.claims.jti in ledger && prev.claims.jti in signed && signed[prev.claims.jti] == prev
    requires t.key == RefreshKey && t.claims == RefreshClaims(prev.claims.id, Family(prev.claims), rtid)
    requires entry.user == prev.claims.id && Some(entry.parentTokenId) == Family(prev.claims)
    ensures rtid !in ledger
    ensures entry.user == ledger[prev.claims.jti].user && entry.parentTokenId == ledger[prev.claims.jti].parentTokenId
    ensures LedgerTracks(Rotate(ledger, prev.claims.jti, rtid, entry), signed[rtid := t], rtid + 1)
  {
    TracksBelowNext(ledger, signed, rtid);
    var o := prev.claims.jti;
    assert WellFormed(o, prev) && o < rtid;
    assert Family(t.claims) == Family(prev.claims);
    assert WellFormed(rtid, t);
    assert entry.parentTokenId == ledger[o].parentTokenId;
    RotateKeepsOnePerFamily(ledger, o, rtid, entry);
    var l, s := Rotate(ledger, o, rtid, entry), signed[rtid := t];
    forall j | j in s ensures j < rtid + 1 && WellFormed(j, s[j]) {
      assert j != rtid ==> s[j] == signed[j];
    }
    forall j | j in l
      ensures j in s && Some(l[j].parentTokenId) == Family(s[j].claims) && l[j].user == s[j].claims.id
    {
      if j != rtid {
        assert l[j] == ledger[j] && s[j] == signed[j];
      }
    }
  }

  /** `later` keeps every token of `earlier` under the same id: the record of signed tokens only grows. */
  predicate Extends(earlier: map<Id, Jwt>, later: map<Id, Jwt>) {
    forall j :: j in earlier ==> j in later && later[j] == earlier[j]
  }

  /**
   * The server's invariant over its stores: every code and account
   * identifier was drawn before `nextId`, the ledger tracks the signed
   * refresh tokens, and each account is filed under its own Google id.
   */
  predicate ValidState(cache: map<Id, AuthCodeRecord>, ledger: map<Id, LedgerEntry>, users: map<string, UserRecord>,
                       nextId: nat, signed: map<Id, Jwt>) {
    (forall c :: c in cache ==> c < nextId)
    && LedgerTracks(ledger, signed, nextId)
    && (forall g :: g in users ==> users[g].id < nextId && users[g].googleId == g)
  }

  /**
   * The outcome of a rotation, from the ledger and counter before it to
   * those after it: the new pair carries the old token's user, the new
   * refresh token has the next id and the old token's family as
   * `parent_token`, and its row replaces the old row with the same user
   * and `parent_token_id`, so the ledger keeps its size. A rotation keeps
   * the new refresh token in the old token's family.
   */
  ghost predicate Rotated(config: Config, ledger0: map<Id, LedgerEntry>, next0: nat, oldToken: Jwt, nowMs: nat,
                          pair: TokenPair, ledger1: map<Id, LedgerEntry>, next1: nat)
    requires oldToken.claims.RefreshClaims? && oldToken.claims.jti in ledger0
    ensures Rotated(config, ledger0, next0, oldToken, nowMs, pair, ledger1, next1) ==>
      Family(pair.refreshToken.claims) == Family(oldToken.claims)
  {
    var c := oldToken.claims;
    var entry := LedgerEntry(c.id, Family(c).value, Seconds(nowMs));
    pair == TokenPair(
      Sign(AccessKey, AccessClaims(c.id), nowMs, config.accessTokenDuration),
      Sign(RefreshKey, RefreshClaims(c.id, Family(c), next0), nowMs, config.refreshTokenDuration))
    && next0 !in ledger0 && next1 == next0 + 1
    && ledger1 == Rotate(ledger0, c.jti, next0, entry)
    && ledger1[next0].user == ledger0[c.jti].user
    && ledger1[next0].parentTokenId == ledger0[c.jti].parentTokenId
    && |ledger1| == |ledger0|
  }

  /**
   * The rotation step on explicit stores: signing the next refresh token for
   * a tracked token and replacing its row keeps the server invariant and
   * only adds to the signed tokens.
   */
  lemma RotationKeepsValid(cache: map<Id, AuthCodeRecord>, ledger: map<Id, LedgerEntry>,
                           users: map<string, UserRecord>, rtid: nat, signed: map<Id, Jwt>, prev: Jwt, t: Jwt, entry: LedgerEntry,
                           ledger1: map<Id, LedgerEntry>, signed1: map<Id, Jwt>)
    requires ValidState(cache, ledger, users, rtid, signed)
    requires prev.claims.RefreshClaims? && prev.claims.jti in ledger && prev.claims.jti in signed && signed[prev.claims.jti] == prev
    requires t.key == RefreshKey && t.claims == RefreshClaims(prev.claims.id, Family(prev.claims), rtid)
    requires entry.user == prev.claims.id && Some(entry.parentTokenId) == Family(prev.claims)
    requires ledger1 == Rotate(ledger, prev.claims.jti, rtid, entry) && signed1 == signed[rtid := t]
    ensures ValidState(cache, ledger1, users, rtid + 1, signed1)
    ensures Extends(signed, signed1)
  {
    TracksAfterRotate(ledger, signed, rtid, prev, t, entry);
  }

  /** The rotation step on explicit stores has the outcome `Rotated` describes. */
  lemma RotationOutcome(config: Config, ledger: map<Id, LedgerEntry>, signed: map<Id, Jwt>, rtid: nat,
                        prev: Jwt, nowMs: nat, pair: TokenPair, entry: LedgerEntry)
    requires LedgerTracks(ledger, signed, rtid)
    requires prev.claims.RefreshClaims? && prev.claims.jti in ledger && prev.claims.jti in signed && signed[prev.claims.jti] == prev
    requires pair == TokenPair(
      Sign(AccessKey, AccessClaims(prev.claims.id), nowMs, config.accessTokenDuration),
      Sign(RefreshKey, RefreshClaims(prev.claims.id, Family(prev.claims), rtid), nowMs, config.refreshTokenDuration))
    requires entry == LedgerEntry(prev.claims.id, Family(prev.claims).value, Seconds(nowMs))
    ensures Rotated(config, ledger, rtid, prev, nowMs, pair, Rotate(ledger, prev.claims.jti, rtid, entry), rtid + 1)
  {
    TracksAfterRotate(ledger, signed, rtid, prev, pair.refreshToken, entry);
    RotateKeepsSize(ledger, prev.claims.jti, rtid, entry);
  }

  // ---------------------------------------------------------------------------
  // The server

  class Server {
    const config: Config
    /** `authCodeCache`: code to record. */
    var authCodeCache: map<Id, AuthCodeRecord>
    /** `refresh_tokens`: `jti` to row. */
    var refreshTokens: map<Id, LedgerEntry>
    /** `users`: Google account id to row. */
    var users: map<string, UserRecord>
    /** The next value `hyperid()` or `ulid()` returns. */
    var nextId: nat
    /** Every refresh token the server has signed, by `jti`. */
    ghost var signed: map<Id, Jwt>

    ghost predicate Valid()
      reads this
    {
      ValidState(authCodeCache, refreshTokens, users, nextId, signed)
    }

    /**
     * A token that verifies with the refresh key was signed by this server:
     * the unforgeability of RS256 signatures, which the model does not compute.
     */
    ghost predicate Genuine(t: Jwt)
      reads this
    {
      t.key == RefreshKey ==> t.claims.RefreshClaims? && t.claims.jti in signed && signed[t.claims.jti] == t
    }

    constructor (config: Config)
      ensures Valid() && this.config == config
      ensures authCodeCache == map[] && refreshTokens == map[] && users == map[] && signed == map[]
    {
      this.config := config;
      authCodeCache, refreshTokens, users, nextId := map[], map[], map[], 0;
      signed := map[];
    }

    /** `hyperid()` / `ulid()`. */
    method FreshId() returns (id: Id)
      requires Valid()
      modifies this`nextId
      ensures Valid() && id == old(nextId) && nextId == id + 1
    {
      TracksAfterFreshId(refreshTokens, signed, nextId);
      id := nextId;
      nextId := nextId + 1;
    }

    /** `authorize`: checks the request and caches a fresh code bound to the user, client and challenge. */
    method Authorize(ticket: Option<GooglePayload>, codeChallenge: string, clientId: string, nowMs: nat)
      returns (r: Result<Id, ApiError>)
      requires Valid()
      modifies this`authCodeCache, this`nextId
      ensures Valid()
      ensures var check := AuthorizeCheck(config, users, ticket, clientId);
        (check.Err? ==> r == Err(check.error) && authCodeCache == old(authCodeCache) && nextId == old(nextId))
        && (check.Ok? ==>
              (r == Ok(old(nextId)) && old(nextId) !in old(authCodeCache) && nextId == old(nextId) + 1
               && authCodeCache == old(authCodeCache)[old(nextId) :=
                    AuthCodeRecord(clientId, check.value.id, codeChallenge, nowMs + config.authCodeTtl * 1000)]))
    {
      var check := AuthorizeCheck(config, users, ticket, clientId);
      if check.Err? {
        return Err(check.error);
      }
      var code := FreshId();
      authCodeCache := authCodeCache[code := AuthCodeRecord(clientId, check.value.id, codeChallenge, nowMs + config.authCodeTtl * 1000)];
      r := Ok(code);
    }

    /**
     * `generateTokenPair`: draws the refresh token id, applies the cap, and
     * records the new refresh token as the first of its own family.
     */
    method GenerateTokenPair(userId: Id, nowMs: nat) returns (r: Result<TokenPair, ApiError>)
      requires Valid()
      modifies this`refreshTokens, this`nextId, this`signed
      ensures Valid()
      ensures nextId == old(nextId) + 1 && old(nextId) !in old(refreshTokens)
      ensures r == IssueOutcome(config, old(refreshTokens), userId, old(nextId), nowMs)
      ensures Extends(old(signed), signed) && (r.Ok? ==> Genuine(r.value.refreshToken))
      ensures r.Err? ==> refreshTokens == old(refreshTokens) && signed == old(signed)
      ensures r.Ok? ==>
        (refreshTokens == old(refreshTokens)[old(nextId) := LedgerEntry(userId, old(nextId), Seconds(nowMs))]
         && signed == old(signed)[old(nextId) := r.value.refreshToken])
    {
      TracksBelowNext(refreshTokens, signed, nextId);
      ghost var ledger0, signed0 := refreshTokens, signed;
      var rtid := FreshId();
      r := IssueOutcome(config, refreshTokens, userId, rtid, nowMs);
      if r.Ok? {
        var entry := LedgerEntry(userId, rtid, Seconds(nowMs));
        TracksAfterIssue(ledger0, signed0, rtid, r.value.refreshToken, entry);
        refreshTokens := refreshTokens[rtid := entry];
        signed := signed[rtid := r.value.refreshToken];
      }
    }

    /** `exchangeAuthCode`: checks the code, client and verifier, then issues a token pair; the cache is left as it is. */
    method ExchangeAuthCode(authCode: Id, codeVerifier: string, clientId: string, nowMs: nat, sha: Pkce.Sha256)
      returns (r: Result<TokenPair, ApiError>)
      requires Valid()
      modifies this`refreshTokens, this`nextId, this`signed
      ensures Valid() && authCodeCache == old(authCodeCache)
      ensures Extends(old(signed), signed) && (r.Ok? ==> Genuine(r.value.refreshToken))
      ensures var check := ExchangeCheck(old(authCodeCache), authCode, codeVerifier, clientId, nowMs, sha);
        (check.Err? ==> r == Err(check.error) && refreshTokens == old(refreshTokens) && nextId == old(nextId) && signed == old(signed))
        && (check.Ok? ==>
              (r == IssueOutcome(config, old(refreshTokens), check.value.userId, old(nextId), nowMs)
               && nextId == old(nextId) + 1
               && (r.Ok? ==> refreshTokens == old(refreshTokens)[old(nextId) := LedgerEntry(check.value.userId, old(nextId), Seconds(nowMs))])))
    {
      var check := ExchangeCheck(authCodeCache, authCode, codeVerifier, clientId, nowMs, sha);
      if check.Err? {
        return Err(check.error);
      }
      r := GenerateTokenPair(check.value.userId, nowMs);
    }

    /** `revokeTokenFamily`: deletes exactly the rows of one family. */
    method RevokeTokenFamily(family: Id)
      requires Valid()
      modifies this`refreshTokens
      ensures Valid()
      ensures refreshTokens == WithoutFamily(old(refreshTokens), family)
    {
      TracksAfterRevoke(refreshTokens, signed, nextId, family);
      refreshTokens := WithoutFamily(refreshTokens, family);
    }

    /**
     * `refreshTokenPair`: a verified token whose row exists is rotated into a
     * new token of the same family and user; a verified token whose row is
     * gone is a replay, and its whole family is revoked.
     */
    method RefreshTokenPair(oldToken: Jwt, nowMs: nat) returns (r: Result<TokenPair, ApiError>)
      requires Valid() && Genuine(oldToken)
      modifies this`refreshTokens, this`nextId, this`signed
      ensures Valid()
      ensures Extends(old(signed), signed) && (r.Ok? ==> Genuine(r.value.refreshToken))
      ensures Verify(oldToken, RefreshKey, nowMs).None? ==>
        (r == Err(ApiError(Unauthorized, BadRefreshToken))
         && refreshTokens == old(refreshTokens) && nextId == old(nextId))
      ensures Verify(oldToken, RefreshKey, nowMs).Some? ==>
        oldToken.claims.RefreshClaims? && Family(oldToken.claims).Some?
      ensures Verify(oldToken, RefreshKey, nowMs).Some? && oldToken.claims.jti !in old(refreshTokens) ==>
        (r == Err(ApiError(Unauthorized, BadRefreshToken))
         && refreshTokens == WithoutFamily(old(refreshTokens), Family(oldToken.claims).value)
         && nextId == old(nextId))
      ensures Verify(oldToken, RefreshKey, nowMs).Some? && oldToken.claims.jti in old(refreshTokens) ==>
        (r.Ok? && Rotated(config, old(refreshTokens), old(nextId), oldToken, nowMs, r.value, refreshTokens, nextId))
    {
      var payload := Verify(oldToken, RefreshKey, nowMs);
      if payload.None? {
        return Err(Raise(Unauthorized, BadRefreshToken));
      }
      var oldId := payload.value.jti;
      var parentToken := Family(payload.value).value;
      if oldId !in refreshTokens {
        RevokeTokenFamily(parentToken);
        return Err(Raise(Unauthorized, BadRefreshToken));
      }
      var pair := RotateRefreshToken(oldToken, nowMs);
      r := Ok(pair);
    }

    /** The rotation branch of `refreshTokenPair`: new tokens, then the delete-and-create transaction. */
    method RotateRefreshToken(oldToken: Jwt, nowMs: nat) returns (pair: TokenPair)
      requires Valid() && Genuine(oldToken) && Verify(oldToken, RefreshKey, nowMs).Some?
      requires oldToken.claims.RefreshClaims? && oldToken.claims.jti in refreshTokens
      modifies this`refreshTokens, this`nextId, this`signed
      ensures Valid() && Family(oldToken.claims).Some?
      ensures Extends(old(signed), signed) && Genuine(pair.refreshToken)
      ensures Rotated(config, old(refreshTokens), old(nextId), oldToken, nowMs, pair, refreshTokens, nextId)
    {
      var c := oldToken.claims;
      var oldId := c.jti;
      var parentToken := Family(c).value;
      var rtid := nextId;
      pair := TokenPair(
        Sign(AccessKey, AccessClaims(c.id), nowMs, config.accessTokenDuration),
        Sign(RefreshKey, RefreshClaims(c.id, Some(parentToken), rtid), nowMs, config.refreshTokenDuration));
      var entry := LedgerEntry(c.id, parentToken, Seconds(nowMs));
      RotationOutcome(config, refreshTokens, signed, rtid, oldToken, nowMs, pair, entry);
      ghost var ledger0, signed0 := refreshTokens, signed;
      nextId, refreshTokens, signed := nextId + 1, Rotate(refreshTokens, oldId, rtid, entry), signed[rtid := pair.refreshToken];
      RotationKeepsValid(authCodeCache, ledger0, users, rtid, signed0, oldToken, pair.refreshToken, entry, refreshTokens, signed);
    }

    /**
     * `logout`: an unexpired refresh token revokes its family
     * (`parent_token ?? jti`); a payload without either revokes nothing.
     */
    method Logout(token: Jwt, nowMs: nat) returns (r: Result<(), ApiError>)
      requires Valid()
      modifies this`refreshTokens
      ensures Valid()
      ensures Verify(token, RefreshKey, nowMs).None? <==> r.Err?
      ensures r.Err? ==> r.error == ApiError(Unauthorized, ExpiredRefreshToken) && refreshTokens == old(refreshTokens)
      ensures r.Ok? && Family(token.claims).Some? ==> refreshTokens == WithoutFamily(old(refreshTokens), Family(token.claims).value)
      ensures r.Ok? && Family(token.claims).None? ==> refreshTokens == old(refreshTokens)
    {
      var payload := Verify(token, RefreshKey, nowMs);
      if payload.None? {
        return Err(Raise(Unauthorized, ExpiredRefreshToken));
      }
      var family := Family(payload.value);
      if family.Some? {
        RevokeTokenFamily(family.value);
      }
      r := Ok(());
    }

    /** `createUser`: a new, enabled account for a Google identity that has none. */
    method CreateUser(ticket: Option<GooglePayload>, nowMs: nat) returns (r: Result<UserRecord, ApiError>)
      requires Valid()
      modifies this`users, this`nextId
      ensures Valid()
      ensures ticket.None? ==> r == Err(ApiError(Unauthorized, ExpiredIdToken))
      ensures ticket.Some? && ticket.value.sub in old(users) ==>
        r == Err(ApiError(ResourceExists, AccountExists))
      ensures r.Err? ==> users == old(users) && nextId == old(nextId)
      ensures ticket.Some? && ticket.value.sub !in old(users) ==>
        var p := VerifyGoogleIdToken(ticket).value;
        r == Ok(UserRecord(old(nextId), p.id, p.name, p.email, p.pfp, Seconds(nowMs), false))
        && users == old(users)[p.id := r.value] && nextId == old(nextId) + 1
    {
      var verified := VerifyGoogleIdToken(ticket);
      if verified.Err? {
        return Err(Raise(Unauthorized, ExpiredIdToken));
      }
      var profile := verified.value;
      if profile.id in users {
        return Err(Raise(ResourceExists, AccountExists));
      }
      var id := FreshId();
      var record := UserRecord(id, profile.id, profile.name, profile.email, profile.pfp, Seconds(nowMs), false);
      users := users[profile.id := record];
      r := Ok(record);
    }

    /** `createUserAndLogin`: `createUser`, then `generateTokenPair` for the new account. */
    method CreateUserAndLogin(ticket: Option<GooglePayload>, nowMs: nat) returns (r: Result<TokenPair, ApiError>)
      requires Valid()
      modifies this`users, this`nextId, this`refreshTokens, this`signed
      ensures Valid()
      ensures ticket.None? ==> r == Err(ApiError(Unauthorized, ExpiredIdToken))
      ensures ticket.Some? && ticket.value.sub in old(users) ==>
        r == Err(ApiError(ResourceExists, AccountExists))
      ensures ticket.None? || ticket.value.sub in old(users) ==>
        users == old(users) && refreshTokens == old(refreshTokens) && nextId == old(nextId)
      ensures ticket.Some? && ticket.value.sub !in old(users) ==>
        ticket.value.sub in users && users[ticket.value.sub].id == old(nextId) && !users[ticket.value.sub].disabled
        && r == IssueOutcome(config, old(refreshTokens), old(nextId), old(nextId) + 1, nowMs)
        && nextId == old(nextId) + 2
      ensures Extends(old(signed), signed) && (r.Ok? ==> Genuine(r.value.refreshToken))
    {
      var account := CreateUser(ticket, nowMs);
      if account.Err? {
        return Err(account.error);
      }
      r := GenerateTokenPair(account.value.id, nowMs);
    }
  }

  /** A freshly created account passes every check of `authorize` from a registered client. */
  lemma CreatedUserPassesAuthorize(config: Config, users: map<string, UserRecord>, ticket: GooglePayload,
                                   record: UserRecord, clientId: string)
    requires clientId in config.clientIds && record.googleId == ticket.sub && !record.disabled
    ensures AuthorizeCheck(config, users[ticket.sub := record], Some(ticket), clientId) == Ok(record)
  {
  }
}
