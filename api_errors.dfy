/**
 * The server's error taxonomy (api/Errors.js): six error classes, each with
 * a fixed code and HTTP status and a default message that replaces a falsy
 * one. An error object is modelled by its kind and its final `.message`;
 * `code` and `status` are functions of the kind.
 */
module ApiErrors {
  import opened Common
  import opened Js

  datatype Kind = BadRequest | InternalServer | ResourceExists | ResourceNotFound | Unauthorized | Forbidden

  /** The `code` field of each class. */
  function Code(k: Kind): string {
    match k
    case BadRequest => "E_BAD_REQUEST"
    case InternalServer => "E_INTERNAL_SERVER"
    case ResourceExists => "E_RESOURCE_EXISTS"
    case ResourceNotFound => "E_RESOURCE_NOT_FOUND"
    case Unauthorized => "E_UNAUTHORIZED"
    case Forbidden => "E_FORBIDDEN"
  }

  /** The `status` field of each class, an HTTP status code. */
  function Status(k: Kind): nat {
    match k
    case BadRequest => 400
    case InternalServer => 500
    case ResourceExists => 409
    case ResourceNotFound => 404
    case Unauthorized => 401
    case Forbidden => 403
  }

  /** The message each constructor uses when it is given a falsy one. */
  function DefaultMessage(k: Kind): string {
    match k
    case BadRequest => "Invalid or malformed information in request."
    case InternalServer => "Internal Server Error."
    case ResourceExists => "Resource or entity already exists."
    case ResourceNotFound => "Resource not found."
    case Unauthorized => "Unauthorized to perform action, or credentials are invalid."
    case Forbidden => "Access to resource is forbidden"
  }

  /**
   * An error message: the class's default, one of the fixed texts the
   * handlers raise, or any other text. `Text` gives each one's wording.
   */
  datatype Message =
    | Default(kind: Kind)
    | InvalidIdToken
    | BadAccessToken
    | UnregisteredClient
    | MalformedIdToken
    | NoSuchAccount
    | AccountDisabled
    | BadAuthCode
    | UnknownClient
    | ChallengeFailed
    | TooManyDevices
    | BadRefreshToken
    | ExpiredRefreshToken
    | ExpiredIdToken
    | AccountExists
    | MissingAccessToken
    | Passed(text: string)

  function Text(m: Message): string {
    match m
    case Default(kind) => DefaultMessage(kind)
    case InvalidIdToken => "Invalid GIS ID token"
    case BadAccessToken => "Invalid or expired access token"
    case UnregisteredClient => "Invalid or unregistered client ID"
    case MalformedIdToken => "Invalid or malformed GIS ID token"
    case NoSuchAccount => "User account does not exist"
    case AccountDisabled => "Account is disabled. Please contact support."
    case BadAuthCode => "Authorization code is invalid or expired"
    case UnknownClient => "Invalid or unknown client ID"
    case ChallengeFailed => "Code challenge verification failed"
    case TooManyDevices => "Too many logged-in devices. Please log out and try again."
    case BadRefreshToken => "Invalid, malformed or expired refresh token"
    case ExpiredRefreshToken => "Invalid or expired refresh token"
    case ExpiredIdToken => "Invalid or expired GIS ID token"
    case AccountExists => "User account already exists. Please log in instead."
    case MissingAccessToken => "Access token missing or invalid"
    case Passed(text) => text
  }

  /**
   * JavaScript truthiness of a message argument: present and not the empty
   * string. Every text but a passed one is a non-empty literal.
   */
  predicate Given(m: Option<Message>) {
    match m
    case None => false
    case Some(Passed(text)) => text != ""
    case Some(_) => true
  }

  /** A thrown server error: its class and the `.message` it ends up with. */
  datatype ApiError = ApiError(kind: Kind, message: Message)

  /** `new XError(message)`. */
  function NewError(kind: Kind, message: Option<Message>): (e: ApiError)
    ensures e.kind == kind && Given(Some(e.message))
    ensures Given(message) ==> e.message == message.value
    ensures !Given(message) ==> e.message == Default(kind)
  {
    ApiError(kind, if Given(message) then message.value else Default(kind))
  }

  /** An error built from a given message keeps it. */
  function Raise(kind: Kind, message: Message): (e: ApiError)
    requires Given(Some(message))
    ensures e == ApiError(kind, message)
  {
    NewError(kind, Some(message))
  }

  /** The two maps from kind to status and from kind to code are injective. */
  lemma StatusAndCodeInjective(k1: Kind, k2: Kind)
    ensures Status(k1) == Status(k2) ==> k1 == k2
    ensures Code(k1) == Code(k2) ==> k1 == k2
  {
  }

  // ---------------------------------------------------------------------------
  // The text given to the `Error` constructor

  /** The text passed to `super`: code, status in parentheses, then the message. */
  function ConstructorText(e: ApiError): string {
    Code(e.kind) + " (" + NumberToString(Status(e.kind), 10) + "): " + Text(e.message)
  }

  /** A number between 100 and 999 prints as three decimal digits. */
  lemma ThreeDigits(n: nat)
    requires 100 <= n < 1000
    ensures |NumberToString(n, 10)| == 3
  {
    var q := n / 10;
    assert 10 <= q < 100;
    assert q / 10 < 10;
    assert |NumberToString(q, 10)| == 2;
  }

  /**
   * The constructor text can be read back: it starts with the code, the
   * three characters inside the parentheses are the status in decimal, and
   * everything after `"): "` is the message.
   */
  lemma ConstructorTextFields(e: ApiError)
    ensures var t, c, m := ConstructorText(e), Code(e.kind), Text(e.message);
      |t| == |c| + 8 + |m| && t[..|c|] == c && t[|c|..|c| + 2] == " (" &&
      DigitsValue(t[|c| + 2..|c| + 5], 10) == Status(e.kind) &&
      t[|c| + 5..|c| + 8] == "): " && t[|c| + 8..] == m
  {
    var c, d := Code(e.kind), NumberToString(Status(e.kind), 10);
    ThreeDigits(Status(e.kind));
    NumberToStringRoundTrip(Status(e.kind), 10);
    var t := ConstructorText(e);
    assert t == c + " (" + d + "): " + Text(e.message);
    assert t[|c| + 2..|c| + 5] == d;
  }

  // ---------------------------------------------------------------------------
  // Class names

  /** The name literal each class is declared with. */
  function ClassName(k: Kind): string {
    match k
    case BadRequest => "BadRequestError"
    case InternalServer => "InternalServerError"
    case ResourceExists => "ResourceExistsError"
    case ResourceNotFound => "ResourceNotFoundError"
    case Unauthorized => "UnauthorizedError"
    case Forbidden => "ForbiddenError"
  }

  /**
   * The module-level `prototype.name` assignments, in order: the class
   * assigned to and the class whose name literal it receives. The last one
   * writes `ForbiddenError` to `UnauthorizedError`.
   */
  const NameWrites: seq<(Kind, Kind)> := [
    (BadRequest, BadRequest),
    (InternalServer, InternalServer),
    (ResourceExists, ResourceExists),
    (ResourceNotFound, ResourceNotFound),
    (Unauthorized, Unauthorized),
    (Unauthorized, Forbidden)
  ]

  /** `.name` of an error of each class once the module has loaded (`Error` when only inherited). */
  function Name(k: Kind): string {
    match PrototypeProperty(NameWrites, k)
    case Some(named) => ClassName(named)
    case None => "Error"
  }

  /** After loading, `UnauthorizedError` is named `ForbiddenError` and `ForbiddenError` only inherits `Error`. */
  lemma NamesAfterLoad()
    ensures forall k :: k != Unauthorized && k != Forbidden ==> Name(k) == ClassName(k)
    ensures Name(Unauthorized) == ClassName(Forbidden)
    ensures Name(Forbidden) == "Error"
  {
    var w := NameWrites;
    LastWriteWins(w, BadRequest, 0);
    LastWriteWins(w, InternalServer, 1);
    LastWriteWins(w, ResourceExists, 2);
    LastWriteWins(w, ResourceNotFound, 3);
    LastWriteWins(w, Unauthorized, 5);
    NoWriteInherits(w, Forbidden);
  }

  /** `String(e)` for a server error: its inherited class name, `": "` and its message. */
  function ToString(e: ApiError): string {
    ErrorToString(Name(e.kind), Text(e.message))
  }

  /** Printed, an `UnauthorizedError` reads as a `ForbiddenError`: the printed text starts with that class name. */
  lemma UnauthorizedPrintsAsForbidden(message: Option<Message>)
    ensures var e := NewError(Unauthorized, message);
      Name(e.kind) == ClassName(Forbidden) && ClassName(Forbidden) <= ToString(e)
  {
    NamesAfterLoad();
  }
}
