/**
 * The browser session (app/src/lib/Auth.js together with `authRequest` in
 * app/src/lib/HTTPClient.js, which call each other): the token pair kept in
 * `localStorage`, the cached current user, and the request sequences of
 * login, refresh, authenticated requests and logout.
 *
 * The network is a transport that answers the last request of the history of
 * every request sent so far, so it can stand for any server, stateful or not.
 */
module ClientAuth {
  import opened Common
  import opened Js
  import opened Pkce
  import opened ClientErrors
  import opened HttpClient

  /** The object stored under `418nsh.auth.tokens`; either field may be missing. */
  datatype StoredTokens = StoredTokens(accessToken: Option<string>, refreshToken: Option<string>)

  /** The `currentUser` store: `null`, `undefined` (an answer without `user`), or a user. */
  datatype UserSlot = Null | Undefined | Known(user: User)

  /** What a request sequence leaves behind: the stored tokens, its result, and the requests it sent, in order. */
  datatype Step<T> = Step(tokens: Option<StoredTokens>, result: Result<T, ClientError>, sent: seq<HttpRequest>)

  function AuthorizeRequest(host: string, idToken: string, challenge: string, clientId: string): HttpRequest {
    HttpRequest(host + "/auth/authorize", Options("post", map[], AuthorizeBody(idToken, challenge, clientId)))
  }

  function TokensRequest(host: string, authCode: Option<string>, verifier: string, clientId: string): HttpRequest {
    HttpRequest(host + "/auth/tokens", Options("post", map[], TokensBody(authCode, verifier, clientId)))
  }

  function RefreshRequest(host: string, t: StoredTokens): HttpRequest {
    HttpRequest(host + "/auth/refresh_tokens", Options("post", map[], RefreshBody(t.refreshToken)))
  }

  function LogoutRequest(host: string, t: StoredTokens): HttpRequest {
    HttpRequest(host + "/auth/logout", Options("post", map[], RefreshBody(t.refreshToken)))
  }

  function CreateAccountRequest(host: string, idToken: string): HttpRequest {
    HttpRequest(host + "/auth/create_account", Options("post", map[], IdTokenBody(idToken)))
  }

  const UserOptions := Options("get", map[], NoBody)

  /** The pair `{accessToken, refreshToken}` read from an answer. */
  function PairOf(p: Payload): StoredTokens {
    StoredTokens(p.accessToken, p.refreshToken)
  }

  /** `currentUser.set(responseJson.user)`. */
  function SlotOf(u: Option<User>): UserSlot {
    match u
    case None => Undefined
    case Some(user) => Known(user)
  }

  // ---------------------------------------------------------------------------
  // refreshTokens and authRequest as functions of the stored tokens and the transport

  /**
   * `refreshTokens()`: without stored tokens it fails before any request;
   * otherwise it sends the stored refresh token once, stores and returns the
   * answered pair, turns a 401 answer into an unauthenticated-user error and
   * passes every other error on, keeping the old tokens when it fails.
   */
  function RefreshOutcome(host: string, tokens: Option<StoredTokens>, net: Transport, log: seq<HttpRequest>)
    : (s: Step<StoredTokens>)
    ensures tokens.None? ==> s == Step(None, Err(UserUnauthenticated(NotLoggedIn)), [])
    ensures tokens.Some? ==> s.sent == [RefreshRequest(host, tokens.value)]
    ensures s.result.Ok? ==> (
      var answer := net(log + s.sent);
      answer.Delivered? && s.result.value == PairOf(answer.payload) && s.tokens == Some(s.result.value))
    ensures s.result.Err? ==> s.tokens == tokens
    ensures s.result.Err? && s.result.error.HttpError? ==> s.result.error.status != 401
    ensures tokens.Some? && s.result.Err? ==> (
      var answer := Request(net(log + s.sent));
      answer.Err? &&
      if answer.error.HttpError? && answer.error.status == 401
      then s.result.error == UserUnauthenticated(LoginAgain)
      else s.result.error == answer.error)
  {
    match tokens
    case None => Step(None, Err(NewUserUnauthenticated(Some(NotLoggedIn))), [])
    case Some(t) =>
      var req := RefreshRequest(host, t);
      match Request(net(log + [req]))
      case Ok(p) => Step(Some(PairOf(p)), Ok(PairOf(p)), [req])
      case Err(e) =>
        if e.HttpError? && e.status == 401 then Step(tokens, Err(NewUserUnauthenticated(Some(LoginAgain))), [req])
        else Step(tokens, Err(e), [req])
  }

  /** The request of one attempt: the caller's options with the stored access token as the only header. */
  function AttemptRequest(url: string, options: Options, t: StoredTokens): HttpRequest {
    HttpRequest(url, WithBearer(options, t.accessToken))
  }

  /** The end of one pass through `authRequest`: its outcome, or the two requests it sent, the tokens it refreshed and the 401 error it retries after. */
  datatype AttemptOutcome =
    | Done(step: Step<Payload>)
    | Retry(first: HttpRequest, refresh: HttpRequest, refreshed: StoredTokens, error: ClientError)

  /** A request to `url` carrying the caller's method and body and only a Bearer `Authorization` header. */
  predicate Authenticated(req: HttpRequest, url: string, options: Options) {
    req.url == url && req.options.httpMethod == options.httpMethod && req.options.json == options.json &&
    req.options.headers.Keys == {"Authorization"} && "Bearer " <= req.options.headers["Authorization"]
  }

  /** A request to the refresh endpoint carrying a stored refresh token and no header. */
  predicate Refreshing(req: HttpRequest, host: string) {
    req.url == host + "/auth/refresh_tokens" && req.options.headers == map[] && req.options.json.RefreshBody?
  }

  predicate IsUnauthorized(r: Result<Payload, ClientError>) {
    r.Err? && r.error.HttpError? && r.error.status == 401
  }

  /**
   * One pass through the body of `authRequest` below its attempt limit:
   * without stored tokens it fails; otherwise it sends one authenticated
   * request, and a 401 answer to it leads to one refresh, after which it
   * retries only if the refresh was answered. A pass never ends in a 401
   * error, and leaves the stored tokens alone unless it retries.
   */
  function Attempt(host: string, url: string, options: Options, tokens: Option<StoredTokens>, net: Transport,
                   log: seq<HttpRequest>): (a: AttemptOutcome)
    ensures tokens.None? ==> a == Done(Step(None, Err(UserUnauthenticated(NotLoggedIn)), []))
    ensures a.Retry? ==>
      tokens.Some? && a.first == AttemptRequest(url, options, tokens.value) && Refreshing(a.refresh, host) &&
      Request(net(log + [a.first])) == Err(a.error) && IsUnauthorized(Err(a.error)) &&
      net(log + [a.first, a.refresh]).Delivered? && a.refreshed == PairOf(net(log + [a.first, a.refresh]).payload)
    ensures a.Done? ==>
      a.step.tokens == tokens && |a.step.sent| <= 2 && !IsUnauthorized(a.step.result) &&
      (tokens.Some? ==> |a.step.sent| >= 1 && a.step.sent[0] == AttemptRequest(url, options, tokens.value)) &&
      (|a.step.sent| == 2 ==> Refreshing(a.step.sent[1], host) && IsUnauthorized(Request(net(log + [a.step.sent[0]])))) &&
      (a.step.result.Ok? ==>
        |a.step.sent| == 1 && net(log + a.step.sent).Delivered? && a.step.result.value == net(log + a.step.sent).payload)
  {
    match tokens
    case None => Done(Step(None, Err(NewUserUnauthenticated(Some(NotLoggedIn))), []))
    case Some(t) =>
      var req := AttemptRequest(url, options, t);
      var answer := Request(net(log + [req]));
      if !IsUnauthorized(answer) then Done(Step(tokens, answer, [req]))
      else
        var rs := RefreshOutcome(host, tokens, net, log + [req]);
        assert [req] + rs.sent == [req, RefreshRequest(host, t)];
        AppendAssoc(log, [req], rs.sent);
        if rs.result.Err? then Done(Step(tokens, Err(rs.result.error), [req] + rs.sent))
        else Retry(req, RefreshRequest(host, t), rs.result.value, answer.error)
  }

  /**
   * What ends an attempt: an answer other than a 401 is its outcome as it
   * is, a 401 followed by a failed refresh ends with the refresh's error,
   * and only a 401 followed by a delivered refresh leads to a retry.
   */
  lemma AttemptPropagates(host: string, url: string, options: Options, t: StoredTokens, net: Transport,
                          log: seq<HttpRequest>)
    ensures var req := AttemptRequest(url, options, t);
      var answer := Request(net(log + [req]));
      var refresh := RefreshOutcome(host, Some(t), net, log + [req]);
      var a := Attempt(host, url, options, Some(t), net, log);
      (!IsUnauthorized(answer) ==> a == Done(Step(Some(t), answer, [req]))) &&
      (IsUnauthorized(answer) && refresh.result.Err? ==>
        a == Done(Step(Some(t), Err(refresh.result.error), [req, RefreshRequest(host, t)]))) &&
      (a.Retry? <==> IsUnauthorized(answer) && refresh.result.Ok?)
  {
  }

  /**
   * `authRequest(url, options, attempt, error)`: past the third attempt it
   * rethrows the error that caused the last retry; otherwise one attempt,
   * and on a retry the next attempt with the refreshed tokens. Each attempt
   * left sends at most two requests, and a success leaves tokens stored.
   */
  function AuthRun(host: string, url: string, options: Options, tokens: Option<StoredTokens>, net: Transport,
                   log: seq<HttpRequest>, attempt: nat, lastError: Option<ClientError>): (r: Step<Payload>)
    requires 1 <= attempt <= 4 && (attempt > 1 ==> lastError.Some?)
    ensures |r.sent| <= 2 * (4 - attempt)
    ensures r.result.Ok? ==> r.tokens.Some?
    decreases 4 - attempt
  {
    if attempt > 3 then Step(tokens, Err(lastError.value), [])
    else
      match Attempt(host, url, options, tokens, net, log)
      case Done(step) => step
      case Retry(first, refresh, refreshed, e) =>
        var rest := AuthRun(host, url, options, Some(refreshed), net, log + [first, refresh], attempt + 1, Some(e));
        Step(rest.tokens, rest.result, [first, refresh] + rest.sent)
  }

  /** An attempt that retries: what the whole run is, in terms of the run after it. */
  lemma AuthRunRetry(host: string, url: string, options: Options, tokens: Option<StoredTokens>, net: Transport,
                     log: seq<HttpRequest>, attempt: nat, lastError: Option<ClientError>)
    requires 1 <= attempt <= 3 && (attempt > 1 ==> lastError.Some?)
    requires Attempt(host, url, options, tokens, net, log).Retry?
    ensures var a := Attempt(host, url, options, tokens, net, log);
      var rest := AuthRun(host, url, options, Some(a.refreshed), net, log + [a.first, a.refresh], attempt + 1, Some(a.error));
      AuthRun(host, url, options, tokens, net, log, attempt, lastError)
        == Step(rest.tokens, rest.result, [a.first, a.refresh] + rest.sent)
  {
  }

  /** The requests one attempt sent. */
  function RunSent(a: AttemptOutcome): seq<HttpRequest> {
    match a
    case Done(step) => step.sent
    case Retry(first, refresh, _, _) => [first, refresh]
  }

  /** An attempt that does not retry is the whole run. */
  lemma AuthRunFinishes(host: string, url: string, options: Options, tokens: Option<StoredTokens>, net: Transport,
                        log: seq<HttpRequest>, attempt: nat, lastError: Option<ClientError>)
    requires 1 <= attempt <= 3 && (attempt > 1 ==> lastError.Some?)
    ensures var a := Attempt(host, url, options, tokens, net, log);
      a.Done? ==> AuthRun(host, url, options, tokens, net, log, attempt, lastError) == a.step
  {
  }

  /** Authenticated requests and refreshes alternate, an authenticated request first. */
  predicate Alternating(s: seq<HttpRequest>, host: string, url: string, options: Options)
    decreases |s|
  {
    |s| == 0 ||
    (Authenticated(s[0], url, options) &&
     (|s| == 1 || (Refreshing(s[1], host) && Alternating(s[2..], host, url, options))))
  }

  /** `log` followed by `s`: every second request was sent after a 401 answer to the one before it. */
  predicate RefreshesFollowUnauthorized(net: Transport, log: seq<HttpRequest>, s: seq<HttpRequest>)
    decreases |s|
  {
    |s| <= 1 ||
    (IsUnauthorized(Request(net(log + [s[0]]))) && RefreshesFollowUnauthorized(net, log + [s[0], s[1]], s[2..]))
  }

  /** `log` followed by `s`: every request after a delivered refresh carries the access token that refresh returned. */
  predicate RetriesCarryRefreshedToken(net: Transport, log: seq<HttpRequest>, s: seq<HttpRequest>, url: string, options: Options)
    decreases |s|
  {
    |s| <= 2 ||
    (var refreshed := net(log + [s[0], s[1]]);
     refreshed.Delivered? && s[2] == AttemptRequest(url, options, PairOf(refreshed.payload)) &&
     RetriesCarryRefreshedToken(net, log + [s[0], s[1]], s[2..], url, options))
  }

  /**
   * `authRequest` sends at most three authenticated requests, each followed
   * by at most one refresh: the requests alternate, authenticated first.
   */
  lemma {:induction false} AuthRunAlternates(host: string, url: string, options: Options, tokens: Option<StoredTokens>,
                                             net: Transport, log: seq<HttpRequest>, attempt: nat, lastError: Option<ClientError>)
    requires 1 <= attempt <= 4 && (attempt > 1 ==> lastError.Some?)
    ensures var r := AuthRun(host, url, options, tokens, net, log, attempt, lastError);
      |r.sent| <= 2 * (4 - attempt) && Alternating(r.sent, host, url, options)
    decreases 4 - attempt
  {
    if attempt <= 3 {
      var a := Attempt(host, url, options, tokens, net, log);
      AuthRunFinishes(host, url, options, tokens, net, log, attempt, lastError);
      if tokens.Some? {
        BearerIsAuthenticated(url, options, tokens.value);
      }
      if a.Retry? {
        var log' := log + [a.first, a.refresh];
        var rest := AuthRun(host, url, options, Some(a.refreshed), net, log', attempt + 1, Some(a.error));
        AuthRunRetry(host, url, options, tokens, net, log, attempt, lastError);
        AuthRunAlternates(host, url, options, Some(a.refreshed), net, log', attempt + 1, Some(a.error));
        assert ([a.first, a.refresh] + rest.sent)[2..] == rest.sent;
      } else if |a.step.sent| == 2 {
        assert a.step.sent[2..] == [];
      }
    }
  }

  /** An attempt's request is authenticated. */
  lemma BearerIsAuthenticated(url: string, options: Options, t: StoredTokens)
    ensures Authenticated(AttemptRequest(url, options, t), url, options)
  {
    var h := WithBearer(options, t.accessToken).headers["Authorization"];
    assert h == "Bearer " + TemplateText(t.accessToken);
    assert h[..7] == "Bearer ";
  }

  /** The first request of `authRequest`, if any, carries the stored access token. */
  lemma FirstAttemptCarriesStoredToken(host: string, url: string, options: Options, tokens: Option<StoredTokens>,
                                       net: Transport, log: seq<HttpRequest>, attempt: nat, lastError: Option<ClientError>)
    requires 1 <= attempt <= 4 && (attempt > 1 ==> lastError.Some?)
    ensures var r := AuthRun(host, url, options, tokens, net, log, attempt, lastError);
      |r.sent| > 0 ==> tokens.Some? && r.sent[0] == AttemptRequest(url, options, tokens.value)
  {
    if attempt <= 3 {
      var a := Attempt(host, url, options, tokens, net, log);
      AuthRunFinishes(host, url, options, tokens, net, log, attempt, lastError);
      if a.Retry? {
        AuthRunRetry(host, url, options, tokens, net, log, attempt, lastError);
      }
    }
  }

  /** `authRequest` sends a refresh only right after an authenticated request that was answered 401. */
  lemma {:induction false} RefreshOnlyAfterUnauthorized(host: string, url: string, options: Options, tokens: Option<StoredTokens>,
                                                        net: Transport, log: seq<HttpRequest>, attempt: nat, lastError: Option<ClientError>)
    requires 1 <= attempt <= 4 && (attempt > 1 ==> lastError.Some?)
    ensures RefreshesFollowUnauthorized(net, log, AuthRun(host, url, options, tokens, net, log, attempt, lastError).sent)
    decreases 4 - attempt
  {
    if attempt <= 3 {
      var a := Attempt(host, url, options, tokens, net, log);
      AuthRunFinishes(host, url, options, tokens, net, log, attempt, lastError);
      if a.Retry? {
        var log' := log + [a.first, a.refresh];
        var rest := AuthRun(host, url, options, Some(a.refreshed), net, log', attempt + 1, Some(a.error));
        AuthRunRetry(host, url, options, tokens, net, log, attempt, lastError);
        RefreshOnlyAfterUnauthorized(host, url, options, Some(a.refreshed), net, log', attempt + 1, Some(a.error));
        assert ([a.first, a.refresh] + rest.sent)[2..] == rest.sent;
      } else if |a.step.sent| == 2 {
        assert a.step.sent[2..] == [];
      }
    }
  }

  /** Each retry carries the access token returned by the refresh just before it. */
  lemma {:induction false} RetryCarriesRefreshedToken(host: string, url: string, options: Options, tokens: Option<StoredTokens>,
                                                      net: Transport, log: seq<HttpRequest>, attempt: nat, lastError: Option<ClientError>)
    requires 1 <= attempt <= 4 && (attempt > 1 ==> lastError.Some?)
    ensures RetriesCarryRefreshedToken(net, log, AuthRun(host, url, options, tokens, net, log, attempt, lastError).sent, url, options)
    decreases 4 - attempt
  {
    if attempt <= 3 {
      var a := Attempt(host, url, options, tokens, net, log);
      AuthRunFinishes(host, url, options, tokens, net, log, attempt, lastError);
      if a.Retry? {
        var log' := log + [a.first, a.refresh];
        var rest := AuthRun(host, url, options, Some(a.refreshed), net, log', attempt + 1, Some(a.error));
        AuthRunRetry(host, url, options, tokens, net, log, attempt, lastError);
        RetryCarriesRefreshedToken(host, url, options, Some(a.refreshed), net, log', attempt + 1, Some(a.error));
        FirstAttemptCarriesStoredToken(host, url, options, Some(a.refreshed), net, log', attempt + 1, Some(a.error));
        assert ([a.first, a.refresh] + rest.sent)[2..] == rest.sent;
      }
    }
  }

  /**
   * A run from attempt `attempt` after `log` that ends in a 401 error sent
   * two requests for each attempt left, the last of them a refresh that was
   * answered, and the error is the answer to the authenticated request just
   * before that refresh.
   */
  predicate UnauthorizedAfterAll(r: Step<Payload>, attempt: nat, net: Transport, log: seq<HttpRequest>, host: string) {
    IsUnauthorized(r.result) && attempt <= 3 ==>
      |r.sent| == 2 * (4 - attempt) &&
      r.result == Request(net(log + r.sent[..|r.sent| - 1])) &&
      Refreshing(r.sent[|r.sent| - 1], host) && net(log + r.sent).Delivered?
  }

  /** Two requests sent before a run from the next attempt keep UnauthorizedAfterAll. */
  lemma UnauthorizedAfterAllBefore(rest: Step<Payload>, pair: seq<HttpRequest>, attempt: nat, net: Transport,
                                   log: seq<HttpRequest>, host: string)
    requires 1 <= attempt <= 3 && |pair| == 2
    requires UnauthorizedAfterAll(rest, attempt + 1, net, log + pair, host)
    requires attempt == 3 ==>
      rest.sent == [] && rest.result == Request(net(log + pair[..1])) &&
      Refreshing(pair[1], host) && net(log + pair).Delivered?
    ensures UnauthorizedAfterAll(Step(rest.tokens, rest.result, pair + rest.sent), attempt, net, log, host)
  {
    var sent := pair + rest.sent;
    if IsUnauthorized(rest.result) {
      if attempt == 3 {
        assert sent == pair;
      } else {
        var k := |rest.sent|;
        assert sent[..|sent| - 1] == pair + rest.sent[..k - 1];
        assert sent[|sent| - 1] == rest.sent[k - 1];
        AppendAssoc(log, pair, rest.sent[..k - 1]);
        AppendAssoc(log, pair, rest.sent);
      }
    }
  }

  /**
   * A 401 error reaches the caller of `authRequest` only once all three
   * attempts were answered 401 and each was followed by a delivered
   * refresh; the error is then the answer to the third authenticated request.
   */
  lemma {:induction false} UnauthorizedOnlyAfterRetries(host: string, url: string, options: Options, tokens: Option<StoredTokens>,
                                                        net: Transport, log: seq<HttpRequest>, attempt: nat, lastError: Option<ClientError>)
    requires 1 <= attempt <= 4 && (attempt > 1 ==> lastError.Some?)
    ensures UnauthorizedAfterAll(AuthRun(host, url, options, tokens, net, log, attempt, lastError), attempt, net, log, host)
    decreases 4 - attempt
  {
    if attempt <= 3 {
      var a := Attempt(host, url, options, tokens, net, log);
      AuthRunFinishes(host, url, options, tokens, net, log, attempt, lastError);
      if a.Retry? {
        var pair := [a.first, a.refresh];
        var rest := AuthRun(host, url, options, Some(a.refreshed), net, log + pair, attempt + 1, Some(a.error));
        AuthRunRetry(host, url, options, tokens, net, log, attempt, lastError);
        UnauthorizedOnlyAfterRetries(host, url, options, Some(a.refreshed), net, log + pair, attempt + 1, Some(a.error));
        assert pair[..1] == [a.first];
        UnauthorizedAfterAllBefore(rest, pair, attempt, net, log, host);
      }
    }
  }

  /**
   * From the first attempt, a 401 error means three authenticated requests
   * each answered 401 and each followed by a delivered refresh, and the
   * error thrown is the third one's answer.
   */
  lemma UnauthorizedAfterThreeAttempts(host: string, url: string, options: Options, tokens: Option<StoredTokens>,
                                       net: Transport, log: seq<HttpRequest>)
    ensures var r := AuthRun(host, url, options, tokens, net, log, 1, None);
      IsUnauthorized(r.result) ==>
        |r.sent| == 6 && RefreshesFollowUnauthorized(net, log, r.sent) &&
        RetriesCarryRefreshedToken(net, log, r.sent, url, options) &&
        r.result == Request(net(log + r.sent[..5])) && net(log + r.sent).Delivered?
  {
    UnauthorizedOnlyAfterRetries(host, url, options, tokens, net, log, 1, None);
    RefreshOnlyAfterUnauthorized(host, url, options, tokens, net, log, 1, None);
    RetryCarriesRefreshedToken(host, url, options, tokens, net, log, 1, None);
  }

  /**
   * A run that, after `log`, succeeded returned the answer to the last
   * request it sent, and that request is an attempt carrying the tokens it
   * left stored.
   */
  predicate EndsWithAnswer(r: Step<Payload>, net: Transport, log: seq<HttpRequest>, url: string, options: Options) {
    r.result.Ok? ==>
      |r.sent| > 0 && net(log + r.sent).Delivered? && r.result.value == net(log + r.sent).payload &&
      r.tokens.Some? && r.sent[|r.sent| - 1] == AttemptRequest(url, options, r.tokens.value)
  }

  /** Two requests sent before a run that ends with its answer leave it ending with that answer. */
  lemma EndsWithAnswerAfter(rest: Step<Payload>, pair: seq<HttpRequest>, net: Transport, log: seq<HttpRequest>,
                            url: string, options: Options)
    requires EndsWithAnswer(rest, net, log + pair, url, options)
    ensures EndsWithAnswer(Step(rest.tokens, rest.result, pair + rest.sent), net, log, url, options)
  {
    AppendAssoc(log, pair, rest.sent);
  }

  /** A successful `authRequest` returns the answer to the last request it sent, an attempt with the tokens left stored. */
  lemma {:induction false} SuccessIsLastAnswer(host: string, url: string, options: Options, tokens: Option<StoredTokens>,
                                               net: Transport, log: seq<HttpRequest>, attempt: nat, lastError: Option<ClientError>)
    requires 1 <= attempt <= 4 && (attempt > 1 ==> lastError.Some?)
    ensures EndsWithAnswer(AuthRun(host, url, options, tokens, net, log, attempt, lastError), net, log, url, options)
    decreases 4 - attempt
  {
    if attempt <= 3 {
      var a := Attempt(host, url, options, tokens, net, log);
      AuthRunFinishes(host, url, options, tokens, net, log, attempt, lastError);
      if a.Retry? {
        var pair := [a.first, a.refresh];
        var rest := AuthRun(host, url, options, Some(a.refreshed), net, log + pair, attempt + 1, Some(a.error));
        AuthRunRetry(host, url, options, tokens, net, log, attempt, lastError);
        SuccessIsLastAnswer(host, url, options, Some(a.refreshed), net, log + pair, attempt + 1, Some(a.error));
        EndsWithAnswerAfter(rest, pair, net, log, url, options);
      }
    }
  }

  /** With tokens stored, `authRequest` sends at least one request. */
  lemma StoredTokensSendRequest(host: string, url: string, options: Options, tokens: Option<StoredTokens>,
                                net: Transport, log: seq<HttpRequest>)
    requires tokens.Some?
    ensures |AuthRun(host, url, options, tokens, net, log, 1, None).sent| > 0
  {
  }

  /** Without stored tokens `authRequest` fails with an unauthenticated-user error before sending anything. */
  lemma NoTokensNoRequest(host: string, url: string, options: Options, net: Transport, log: seq<HttpRequest>,
                          attempt: nat, lastError: Option<ClientError>)
    requires 1 <= attempt <= 3 && (attempt > 1 ==> lastError.Some?)
    ensures AuthRun(host, url, options, None, net, log, attempt, lastError)
      == Step(None, Err(UserUnauthenticated(NotLoggedIn)), [])
  {
  }

  // ---------------------------------------------------------------------------
  // The session

  datatype Fetched = CachedUser(slot: UserSlot) | FetchedBody(payload: Payload)

  /** An account creation that failed only because the account exists still leads to login. */
  predicate ProceedsToLogin(c: Result<Payload, ClientError>) {
    c.Ok? || (c.error.HttpError? && c.error.status == 409)
  }

  /** What a session operation leaves behind: stored tokens, the `currentUser` store, its result, and the requests it sent. */
  datatype Outcome<T> = Outcome(tokens: Option<StoredTokens>, currentUser: UserSlot, result: Result<T, ClientError>, sent: seq<HttpRequest>)

  /**
   * `login(idToken)` with code verifier `verifier`, from stored `tokens`,
   * store `user` and history `log`: authorize with the challenge, exchange
   * the code and the verifier for tokens, store them, then `fetchUser()`.
   * The login resolves with the pair it stored even when fetching the user
   * refreshed it in the meantime. It sends at most eight requests, and a
   * login that resolves leaves tokens stored.
   */
  ghost function LoginRun(host: string, clientId: string, idToken: string, verifier: string, sha: Sha256,
                          tokens: Option<StoredTokens>, user: UserSlot, net: Transport, log: seq<HttpRequest>)
    : (o: Outcome<StoredTokens>)
    ensures 1 <= |o.sent| <= 8
    ensures o.result.Ok? ==> o.tokens.Some?
  {
    var authorize := AuthorizeRequest(host, idToken, S256(verifier, sha), clientId);
    var authorized := Request(net(log + [authorize]));
    if authorized.Err? then Outcome(tokens, user, Err(authorized.error), [authorize])
    else
      var exchange := TokensRequest(host, authorized.value.authCode, verifier, clientId);
      var issued := Request(net(log + [authorize, exchange]));
      if issued.Err? then Outcome(tokens, user, Err(issued.error), [authorize, exchange])
      else
        var pair := PairOf(issued.value);
        if user != Null then Outcome(Some(pair), user, Ok(pair), [authorize, exchange])
        else
          var run := AuthRun(host, host + "/auth/user", UserOptions, Some(pair), net, log + [authorize, exchange], 1, None);
          if run.result.Err? then Outcome(run.tokens, Null, Err(run.result.error), [authorize, exchange] + run.sent)
          else Outcome(run.tokens, SlotOf(run.result.value.user), Ok(pair), [authorize, exchange] + run.sent)
  }

  /**
   * Login first sends the S256 challenge of the verifier; it asks for tokens
   * exactly when the authorize request succeeded, and that second request
   * carries the answered code and the verifier the challenge was made from.
   */
  lemma LoginSendsChallengeThenVerifier(host: string, clientId: string, idToken: string, verifier: string, sha: Sha256,
                                        tokens: Option<StoredTokens>, user: UserSlot, net: Transport, log: seq<HttpRequest>)
    ensures var o := LoginRun(host, clientId, idToken, verifier, sha, tokens, user, net, log);
      |o.sent| >= 1 && o.sent[0] == AuthorizeRequest(host, idToken, S256(verifier, sha), clientId) &&
      var authorized := Request(net(log + [o.sent[0]]));
      (|o.sent| >= 2 <==> authorized.Ok?) &&
      (|o.sent| >= 2 ==>
        o.sent[1] == TokensRequest(host, authorized.value.authCode, verifier, clientId) &&
        VerifyPkceChallenge(o.sent[0].options.json.codeChallenge, o.sent[1].options.json.codeVerifier, sha))
  {
    PkceRoundTrip(verifier, sha);
    var authorize := AuthorizeRequest(host, idToken, S256(verifier, sha), clientId);
    var authorized := Request(net(log + [authorize]));
    if authorized.Ok? {
      var exchange := TokensRequest(host, authorized.value.authCode, verifier, clientId);
      var issued := Request(net(log + [authorize, exchange]));
      if issued.Ok? && user == Null {
        var run := AuthRun(host, host + "/auth/user", UserOptions, Some(PairOf(issued.value)), net, log + [authorize, exchange], 1, None);
        assert ([authorize, exchange] + run.sent)[..2] == [authorize, exchange];
      }
    }
  }

  /**
   * A login that resolves resolves with the pair the tokens endpoint issued,
   * and one that fails before the user is fetched leaves the session as it
   * was.
   */
  lemma LoginResolvesWithIssuedPair(host: string, clientId: string, idToken: string, verifier: string, sha: Sha256,
                                    tokens: Option<StoredTokens>, user: UserSlot, net: Transport, log: seq<HttpRequest>)
    ensures var o := LoginRun(host, clientId, idToken, verifier, sha, tokens, user, net, log);
      (o.result.Ok? ==>
        |o.sent| >= 2 && Request(net(log + o.sent[..2])).Ok? &&
        o.result.value == PairOf(Request(net(log + o.sent[..2])).value) &&
        (user != Null ==> o.tokens == Some(o.result.value))) &&
      (o.result.Err? && |o.sent| <= 2 ==> o.tokens == tokens && o.currentUser == user)
  {
    LoginSendsChallengeThenVerifier(host, clientId, idToken, verifier, sha, tokens, user, net, log);
    var o := LoginRun(host, clientId, idToken, verifier, sha, tokens, user, net, log);
    if |o.sent| >= 2 {
      assert o.sent[..2] == [o.sent[0], o.sent[1]];
      var issued := Request(net(log + [o.sent[0], o.sent[1]]));
      if issued.Ok? && user == Null {
        StoredTokensSendRequest(host, host + "/auth/user", UserOptions, Some(PairOf(issued.value)), net, log + [o.sent[0], o.sent[1]]);
      }
    }
  }

  /**
   * With no user cached, a login whose exchange succeeded goes on to fetch
   * the user, and that request carries the access token just issued.
   */
  lemma LoginFetchesWithIssuedToken(host: string, clientId: string, idToken: string, verifier: string, sha: Sha256,
                                    tokens: Option<StoredTokens>, net: Transport, log: seq<HttpRequest>)
    ensures var o := LoginRun(host, clientId, idToken, verifier, sha, tokens, Null, net, log);
      |o.sent| >= 2 && Request(net(log + o.sent[..2])).Ok? ==>
        |o.sent| > 2 &&
        o.sent[2] == AttemptRequest(host + "/auth/user", UserOptions, PairOf(Request(net(log + o.sent[..2])).value))
  {
    LoginSendsChallengeThenVerifier(host, clientId, idToken, verifier, sha, tokens, Null, net, log);
    var o := LoginRun(host, clientId, idToken, verifier, sha, tokens, Null, net, log);
    if |o.sent| >= 2 {
      assert o.sent[..2] == [o.sent[0], o.sent[1]];
      var issued := Request(net(log + [o.sent[0], o.sent[1]]));
      if issued.Ok? {
        var t := Some(PairOf(issued.value));
        StoredTokensSendRequest(host, host + "/auth/user", UserOptions, t, net, log + [o.sent[0], o.sent[1]]);
        FirstAttemptCarriesStoredToken(host, host + "/auth/user", UserOptions, t, net, log + [o.sent[0], o.sent[1]], 1, None);
      }
    }
  }

  /**
   * `signInOrCreateAccount(idToken)` as an outcome: `Ok(None)` is the
   * alert-and-return path. It sends at most nine requests, and a sign-in
   * that resolves with a pair leaves tokens stored.
   */
  ghost function SignInRun(host: string, clientId: string, idToken: string, verifier: string, sha: Sha256,
                           tokens: Option<StoredTokens>, user: UserSlot, net: Transport, log: seq<HttpRequest>)
    : (o: Outcome<Option<StoredTokens>>)
    ensures 1 <= |o.sent| <= 9
    ensures o.result.Ok? && o.result.value.Some? ==> o.tokens.Some?
  {
    var create := CreateAccountRequest(host, idToken);
    var created := Request(net(log + [create]));
    if !ProceedsToLogin(created) then Outcome(tokens, user, Ok(None), [create])
    else
      var login := LoginRun(host, clientId, idToken, verifier, sha, tokens, user, net, log + [create]);
      Outcome(login.tokens, login.currentUser,
              if login.result.Ok? then Ok(Some(login.result.value)) else Err(login.result.error),
              [create] + login.sent)
  }

  /**
   * Sign-in always tries to create the account first; it gives up quietly,
   * with the session untouched, exactly when that fails for a reason other
   * than a 409, and otherwise goes on to the authorize request of login.
   */
  lemma SignInCreatesThenLogsIn(host: string, clientId: string, idToken: string, verifier: string, sha: Sha256,
                               tokens: Option<StoredTokens>, user: UserSlot, net: Transport, log: seq<HttpRequest>)
    ensures var o := SignInRun(host, clientId, idToken, verifier, sha, tokens, user, net, log);
      |o.sent| >= 1 && o.sent[0] == CreateAccountRequest(host, idToken) &&
      var created := Request(net(log + [o.sent[0]]));
      (o.result == Ok(None) <==> !ProceedsToLogin(created)) &&
      (!ProceedsToLogin(created) ==> o.sent == [o.sent[0]] && o.tokens == tokens && o.currentUser == user) &&
      (ProceedsToLogin(created) ==>
        |o.sent| >= 2 && o.sent[1] == AuthorizeRequest(host, idToken, S256(verifier, sha), clientId))
  {
    var create := CreateAccountRequest(host, idToken);
    LoginSendsChallengeThenVerifier(host, clientId, idToken, verifier, sha, tokens, user, net, log + [create]);
  }

  class Session {
    const host: string
    const clientId: string
    /** The parsed value under `418nsh.auth.tokens` in `localStorage` (`null` when absent). */
    var tokens: Option<StoredTokens>
    /** The `currentUser` store. */
    var currentUser: UserSlot
    /** Every request sent, in order: the history the transport answers. */
    var sent: seq<HttpRequest>

    /** A page load: `currentUser` starts `null` and `localStorage` holds whatever an earlier session left. */
    constructor(host: string, clientId: string, stored: Option<StoredTokens>)
      ensures this.host == host && this.clientId == clientId
      ensures tokens == stored && currentUser == Null && sent == []
    {
      this.host := host;
      this.clientId := clientId;
      tokens := stored;
      currentUser := Null;
      sent := [];
    }

    /** `getTokens()`. */
    method GetTokens() returns (t: Option<StoredTokens>)
      ensures t == tokens
    {
      t := tokens;
    }

    /** `setTokens(value)`: `null` removes the entry. */
    method SetTokens(value: Option<StoredTokens>)
      modifies this`tokens
      ensures tokens == value
    {
      tokens := value;
    }

    /** `request(url, options)`: one request on the transport. */
    method Send(req: HttpRequest, net: Transport) returns (r: Result<Payload, ClientError>)
      modifies this`sent
      ensures sent == old(sent) + [req] && r == Request(net(sent))
    {
      sent := sent + [req];
      r := Request(net(sent));
    }

    /** `refreshTokens()`. */
    method RefreshTokens(net: Transport) returns (r: Result<StoredTokens, ClientError>)
      modifies this`tokens, this`sent
      ensures var s := RefreshOutcome(host, old(tokens), net, old(sent));
        tokens == s.tokens && r == s.result && sent == old(sent) + s.sent
    {
      var t := GetTokens();
      if t.None? {
        r := Err(NewUserUnauthenticated(Some(NotLoggedIn)));
        return;
      }
      var answer := Send(RefreshRequest(host, t.value), net);
      if answer.Ok? {
        SetTokens(Some(PairOf(answer.value)));
        r := Ok(PairOf(answer.value));
      } else if answer.error.HttpError? && answer.error.status == 401 {
        r := Err(NewUserUnauthenticated(Some(LoginAgain)));
      } else {
        r := Err(answer.error);
      }
    }

    /** One pass through the body of `authRequest` below its attempt limit. */
    method AttemptOnce(url: string, options: Options, net: Transport) returns (a: AttemptOutcome)
      modifies this`tokens, this`sent
      ensures a == Attempt(host, url, options, old(tokens), net, old(sent))
      ensures sent == old(sent) + RunSent(a)
      ensures tokens == if a.Retry? then Some(a.refreshed) else old(tokens)
    {
      var t := GetTokens();
      if t.None? {
        a := Done(Step(None, Err(NewUserUnauthenticated(Some(NotLoggedIn))), []));
        return;
      }
      var req := AttemptRequest(url, options, t.value);
      var answer := Send(req, net);
      if !IsUnauthorized(answer) {
        a := Done(Step(tokens, answer, [req]));
        return;
      }
      ghost var log := sent;
      var refreshed := RefreshTokens(net);
      AppendAssoc(old(sent), [req], [RefreshRequest(host, t.value)]);
      if refreshed.Err? {
        a := Done(Step(tokens, Err(refreshed.error), [req, RefreshRequest(host, t.value)]));
      } else {
        a := Retry(req, RefreshRequest(host, t.value), refreshed.value, answer.error);
      }
    }

    /** `authRequest(url, options)`, its recursion written as a loop over the attempt number. */
    method AuthRequest(url: string, options: Options, net: Transport) returns (r: Result<Payload, ClientError>)
      modifies this`tokens, this`sent
      ensures var run := AuthRun(host, url, options, old(tokens), net, old(sent), 1, None);
        tokens == run.tokens && r == run.result && sent == old(sent) + run.sent
    {
      var attempt := 1;
      var lastError: Option<ClientError> := None;
      ghost var done: seq<HttpRequest> := [];
      ghost var whole := AuthRun(host, url, options, tokens, net, sent, 1, None);
      while true
        invariant 1 <= attempt <= 4 && (attempt > 1 ==> lastError.Some?)
        invariant sent == old(sent) + done
        invariant whole == AuthRun(host, url, options, old(tokens), net, old(sent), 1, None)
        invariant var rest := AuthRun(host, url, options, tokens, net, sent, attempt, lastError);
          whole == Step(rest.tokens, rest.result, done + rest.sent)
        decreases 4 - attempt
      {
        if attempt > 3 {
          r := Err(lastError.value);
          assert done + [] == done;
          return;
        }
        ghost var log, before := sent, tokens;
        AuthRunFinishes(host, url, options, tokens, net, log, attempt, lastError);
        var a := AttemptOnce(url, options, net);
        AppendAssoc(old(sent), done, RunSent(a));
        if a.Done? {
          r := a.step.result;
          return;
        }
        AuthRunRetry(host, url, options, before, net, log, attempt, lastError);
        AppendAssoc(done, RunSent(a), AuthRun(host, url, options, tokens, net, sent, attempt + 1, Some(a.error)).sent);
        done := done + RunSent(a);
        attempt, lastError := attempt + 1, Some(a.error);
      }
    }

    /** `createAccount(idToken)`. */
    method CreateAccount(idToken: string, net: Transport) returns (r: Result<Payload, ClientError>)
      modifies this`sent
      ensures sent == old(sent) + [CreateAccountRequest(host, idToken)] && r == Request(net(sent))
    {
      r := Send(CreateAccountRequest(host, idToken), net);
    }

    /** `fetchUser()`: a cached user (even `undefined`) is returned without a request. */
    method FetchUser(net: Transport) returns (r: Result<Fetched, ClientError>)
      modifies this`tokens, this`sent, this`currentUser
      ensures old(currentUser) != Null ==>
        r == Ok(CachedUser(old(currentUser))) && tokens == old(tokens) && sent == old(sent) && currentUser == old(currentUser)
      ensures old(currentUser) == Null ==> (
        var run := AuthRun(host, host + "/auth/user", UserOptions, old(tokens), net, old(sent), 1, None);
        tokens == run.tokens && sent == old(sent) + run.sent &&
        (run.result.Ok? ==> r == Ok(FetchedBody(run.result.value)) && currentUser == SlotOf(run.result.value.user)) &&
        (run.result.Err? ==> r == Err(run.result.error) && currentUser == Null))
    {
      if currentUser != Null {
        r := Ok(CachedUser(currentUser));
        return;
      }
      var answer := AuthRequest(host + "/auth/user", UserOptions, net);
      if answer.Err? {
        r := Err(answer.error);
        return;
      }
      currentUser := SlotOf(answer.value.user);
      r := Ok(FetchedBody(answer.value));
    }

    /**
     * `login(idToken)` with `words` the 28 random values of its code
     * verifier (from `crypto.getRandomValues`).
     */
    method Login(idToken: string, words: seq<uint32>, sha: Sha256, net: Transport) returns (r: Result<StoredTokens, ClientError>)
      requires |words| == 28
      modifies this`tokens, this`sent, this`currentUser
      ensures var o := LoginRun(host, clientId, idToken, CodeVerifier(words), sha, old(tokens), old(currentUser), net, old(sent));
        tokens == o.tokens && currentUser == o.currentUser && r == o.result && sent == old(sent) + o.sent
    {
      var verifier := CodeVerifier(words);
      var challenge := S256(verifier, sha);
      var authorize := AuthorizeRequest(host, idToken, challenge, clientId);
      var authorized := Send(authorize, net);
      if authorized.Err? {
        r := Err(authorized.error);
        return;
      }
      var exchange := TokensRequest(host, authorized.value.authCode, verifier, clientId);
      var issued := Send(exchange, net);
      assert old(sent) + [authorize] + [exchange] == old(sent) + [authorize, exchange];
      if issued.Err? {
        r := Err(issued.error);
        return;
      }
      var pair := PairOf(issued.value);
      SetTokens(Some(pair));
      ghost var mid := sent;
      var user := FetchUser(net);
      AppendAssoc(old(sent), [authorize, exchange], sent[|mid|..]);
      if user.Err? {
        r := Err(user.error);
        return;
      }
      r := Ok(pair);
    }

    /** `signInOrCreateAccount(idToken)`, with `words` for the code verifier of its login. */
    method SignInOrCreateAccount(idToken: string, words: seq<uint32>, sha: Sha256, net: Transport)
      returns (r: Result<Option<StoredTokens>, ClientError>)
      requires |words| == 28
      modifies this`tokens, this`sent, this`currentUser
      ensures var o := SignInRun(host, clientId, idToken, CodeVerifier(words), sha, old(tokens), old(currentUser), net, old(sent));
        tokens == o.tokens && currentUser == o.currentUser && r == o.result && sent == old(sent) + o.sent
    {
      var created := CreateAccount(idToken, net);
      if !ProceedsToLogin(created) {
        r := Ok(None);
        return;
      }
      ghost var mid := sent;
      var pair := Login(idToken, words, sha, net);
      AppendAssoc(old(sent), [CreateAccountRequest(host, idToken)], sent[|mid|..]);
      if pair.Err? {
        r := Err(pair.error);
      } else {
        r := Ok(Some(pair.value));
      }
    }

    /** `logout()`: a failed server-side logout keeps the stored tokens and the cached user. */
    method Logout(net: Transport) returns (r: Result<(), ClientError>)
      modifies this`tokens, this`sent, this`currentUser
      ensures old(tokens).None? ==>
        r == Err(UserUnauthenticated(AlreadyLoggedOut)) && sent == old(sent) && tokens == None && currentUser == old(currentUser)
      ensures old(tokens).Some? ==>
        sent == old(sent) + [LogoutRequest(host, old(tokens).value)] &&
        var answer := Request(net(sent));
        (answer.Err? ==> r == Err(answer.error) && tokens == old(tokens) && currentUser == old(currentUser)) &&
        (answer.Ok? ==> r == Ok(()) && tokens == None && currentUser == Null)
    {
      var t := GetTokens();
      if t.None? {
        r := Err(NewUserUnauthenticated(Some(AlreadyLoggedOut)));
        return;
      }
      var answer := Send(LogoutRequest(host, t.value), net);
      if answer.Err? {
        r := Err(answer.error);
        return;
      }
      SetTokens(None);
      currentUser := Null;
      r := Ok(());
    }
  }
}
