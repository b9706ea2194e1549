/**
 * `request` in app/src/lib/HTTPClient.js: a `ky` call whose rejections are
 * turned into the browser's error classes. The network is a transport
 * function from a request to what `ky` reports for it.
 */
module HttpClient {
  import opened Common
  import opened Js
  import opened ClientErrors

  /** A user record as the server sends it. */
  datatype User = User(id: string, fullName: string, email: string, pfp: Option<string>)

  /** The fields the client reads from a successful JSON answer; each may be missing. */
  datatype Payload = Payload(
    authCode: Option<string>, accessToken: Option<string>, refreshToken: Option<string>, user: Option<User>)

  /** The `json` option of a request: the bodies the client sends. */
  datatype Body =
    | NoBody
    | IdTokenBody(idToken: string)
    | AuthorizeBody(idToken: string, codeChallenge: string, clientId: string)
    | TokensBody(authCode: Option<string>, codeVerifier: string, clientId: string)
    | RefreshBody(refreshToken: Option<string>)

  datatype Options = Options(httpMethod: string, headers: map<string, string>, json: Body)

  datatype HttpRequest = HttpRequest(url: string, options: Options)

  /** The body of an error answer as `response.json()` reads it. */
  datatype ErrorBody =
    | NotJson
    | JsonNull
    | JsonString(s: string)
    | JsonObject(code: Option<string>, message: Option<string>)
    | JsonOther

  /** What `ky` reports: a 2xx answer, an `HTTPError` for any other status, or another failure. */
  datatype Response =
    | Delivered(payload: Payload)
    | HttpFailure(status: nat, body: ErrorBody)
    | Failed(name: string, message: Option<string>)

  /**
   * The network and the server behind it: what `ky` reports for the last
   * request of a history of every request sent, so its answer may depend on
   * everything sent before.
   */
  type Transport = seq<HttpRequest> -> Response

  /**
   * The `HTTPError` branch of `request`: a body with `code` and `message`
   * keeps both; a body with only `message` gets the code `E_HTTP`; anything
   * else gets `E_HTTP` and a fixed message. A body that is not JSON, or is
   * `null`, makes the handler itself throw.
   */
  function ClassifyErrorBody(status: nat, body: ErrorBody): (e: ClientError)
    ensures body.NotJson? ==> e == Foreign(SyntaxError)
    ensures body.JsonNull? ==> e == Foreign(TypeError)
    ensures body.JsonObject? && Truthy(body.code) && Truthy(body.message) ==>
      e == HttpError(status, body.code.value, Received(body.message.value))
    ensures body.JsonObject? && !Truthy(body.code) && Truthy(body.message) ==>
      e == HttpError(status, "E_HTTP", Received(body.message.value))
    ensures (body.JsonString? || body.JsonOther? || (body.JsonObject? && !Truthy(body.message))) ==>
      e == HttpError(status, "E_HTTP", UnknownError)
    ensures e.HttpError? ==> e.status == status && Given(Some(e.message))
  {
    match body
    case NotJson => Foreign(SyntaxError)
    case JsonNull => Foreign(TypeError)
    case JsonObject(code, message) =>
      if Truthy(code) && Truthy(message) then NewHttpError(status, code.value, ReceivedText(message))
      else if Truthy(message) then NewHttpError(status, "E_HTTP", ReceivedText(message))
      else NewHttpError(status, "E_HTTP", Some(UnknownError))
    case _ => NewHttpError(status, "E_HTTP", Some(UnknownError))
  }

  /** `request(url, options)` given what `ky` reports. */
  function Request(res: Response): (r: Result<Payload, ClientError>)
    ensures res.Delivered? <==> r.Ok?
    ensures r.Ok? ==> r.value == res.payload
    ensures res.Failed? ==> r == Err(NewHttpClientError(res.name, ReceivedText(res.message)))
    ensures r.Err? && r.error.HttpError? ==> res.HttpFailure? && r.error.status == res.status
  {
    match res
    case Delivered(p) => Ok(p)
    case HttpFailure(status, body) => Err(ClassifyErrorBody(status, body))
    case Failed(name, message) => Err(NewHttpClientError(name, ReceivedText(message)))
  }

  /** `{...options, headers: {Authorization: `Bearer ${accessToken}`}}`: the caller's headers are replaced. */
  function WithBearer(options: Options, accessToken: Option<string>): (o: Options)
    ensures o.httpMethod == options.httpMethod && o.json == options.json
    ensures o.headers.Keys == {"Authorization"}
    ensures o.headers["Authorization"] == "Bearer " + TemplateText(accessToken)
  {
    options.(headers := map["Authorization" := "Bearer " + TemplateText(accessToken)])
  }
}
