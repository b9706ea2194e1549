/**
 * The browser's error classes (app/src/lib/Errors.js): an HTTP error answer
 * from the server, a failure of the HTTP client itself, and an
 * unauthenticated user; plus errors of the runtime that reach callers
 * without being wrapped.
 *
 * The fixed texts the client writes into errors are named by `Message`;
 * `Text` gives each one's exact wording.
 */
module ClientErrors {
  import opened Common
  import opened Js

  /** An error message: a text received from elsewhere, or one of the client's fixed texts. */
  datatype Message =
    | Received(text: string)
    | HttpResponseDefault
    | UnknownError
    | UnauthenticatedDefault
    | NotLoggedIn
    | LoginAgain
    | AlreadyLoggedOut

  /** The wording of a message. */
  function Text(m: Message): string {
    match m
    case Received(text) => text
    case HttpResponseDefault => "An error was received as HTTP response."
    case UnknownError => "An unknown error occurred."
    case UnauthenticatedDefault => "User is unauthenticated or not logged in."
    case NotLoggedIn => "User is not logged in."
    case LoginAgain => "Invalid auth credentials, please login again."
    case AlreadyLoggedOut => "User is already logged out."
  }

  /** JavaScript truthiness of a message argument: present and not the empty string. */
  predicate Given(m: Option<Message>) {
    match m
    case None => false
    case Some(Received(text)) => text != ""
    case Some(_) => true
  }

  /** A message argument is given exactly when its text is truthy. */
  lemma GivenMeansTruthy(m: Option<Message>)
    ensures Given(m) <==> m.Some? && Text(m.value) != ""
  {
  }

  /** A text received from elsewhere, such as the `message` field of a JSON answer. */
  function ReceivedText(s: Option<string>): Option<Message> {
    match s
    case None => None
    case Some(text) => Some(Received(text))
  }

  /** The errors of the runtime that the client lets through unwrapped. */
  datatype RuntimeError = SyntaxError | TypeError

  datatype ClientError =
    | HttpError(status: nat, code: string, message: Message)
    | HttpClientError(innerName: string, message: Message)
    | UserUnauthenticated(message: Message)
    | Foreign(kind: RuntimeError)

  /** `new HttpError(response, code, message)`: `status` comes from the response. */
  function NewHttpError(status: nat, code: string, message: Option<Message>): (e: ClientError)
    ensures e.HttpError? && e.status == status && e.code == code && Given(Some(e.message))
    ensures Given(message) ==> e.message == message.value
    ensures !Given(message) ==> e.message == HttpResponseDefault
  {
    HttpError(status, code, if Given(message) then message.value else HttpResponseDefault)
  }

  /** `new HttpClientError(inner, message)`, remembering the inner error's name. */
  function NewHttpClientError(innerName: string, message: Option<Message>): (e: ClientError)
    ensures e.HttpClientError? && e.innerName == innerName && Given(Some(e.message))
    ensures Given(message) ==> e.message == message.value
    ensures !Given(message) ==> e.message == UnknownError
  {
    HttpClientError(innerName, if Given(message) then message.value else UnknownError)
  }

  /** `new UserUnauthenticatedError(message)`. */
  function NewUserUnauthenticated(message: Option<Message>): (e: ClientError)
    ensures e.UserUnauthenticated? && Given(Some(e.message))
    ensures Given(message) ==> e.message == message.value
    ensures !Given(message) ==> e.message == UnauthenticatedDefault
  {
    UserUnauthenticated(if Given(message) then message.value else UnauthenticatedDefault)
  }

  /** The text each constructor passes to `super`. */
  function ConstructorText(e: ClientError): string {
    match e
    case HttpError(status, code, message) => code + " (" + NumberToString(status, 10) + "): " + Text(message)
    case HttpClientError(innerName, message) => innerName + ": " + Text(message)
    case UserUnauthenticated(message) => Text(message)
    case Foreign(kind) => RuntimeName(kind)
  }

  function RuntimeName(kind: RuntimeError): string {
    match kind
    case SyntaxError => "SyntaxError"
    case TypeError => "TypeError"
  }

  /** The constructor text of each of the three classes ends with the error's message. */
  lemma ConstructorTextEndsWithMessage(e: ClientError)
    requires !e.Foreign?
    ensures var t, m := ConstructorText(e), Text(e.message);
      |m| <= |t| && t[|t| - |m|..] == m
  {
  }

  /** The three classes of the module. */
  datatype Class = HttpErrorClass | HttpClientErrorClass | UserUnauthenticatedClass

  /** The name literal each class is declared with. */
  function ClassName(c: Class): string {
    match c
    case HttpErrorClass => "HttpError"
    case HttpClientErrorClass => "HttpClientError"
    case UserUnauthenticatedClass => "UserUnauthenticatedError"
  }

  /**
   * The module-level `prototype.name` assignments, in order: the class
   * assigned to and the class whose name literal it receives. All three
   * assign to `HttpError`.
   */
  const NameWrites: seq<(Class, Class)> := [
    (HttpErrorClass, HttpErrorClass),
    (HttpErrorClass, HttpClientErrorClass),
    (HttpErrorClass, UserUnauthenticatedClass)
  ]

  function ClassOf(e: ClientError): Class
    requires !e.Foreign?
  {
    match e
    case HttpError(_, _, _) => HttpErrorClass
    case HttpClientError(_, _) => HttpClientErrorClass
    case UserUnauthenticated(_) => UserUnauthenticatedClass
  }

  /** `.name` of an error once the module has loaded (`Error` when only inherited). */
  function Name(e: ClientError): string {
    if e.Foreign? then RuntimeName(e.kind)
    else match PrototypeProperty(NameWrites, ClassOf(e))
      case Some(named) => ClassName(named)
      case None => "Error"
  }

  /** After loading, an `HttpError` is named `UserUnauthenticatedError` and the other two classes only inherit `Error`. */
  lemma NamesAfterLoad(status: nat, code: string, innerName: string, message: Message)
    ensures Name(HttpError(status, code, message)) == ClassName(UserUnauthenticatedClass)
    ensures Name(HttpClientError(innerName, message)) == "Error"
    ensures Name(UserUnauthenticated(message)) == "Error"
  {
    LastWriteWins(NameWrites, HttpErrorClass, 2);
    NoWriteInherits(NameWrites, HttpClientErrorClass);
    NoWriteInherits(NameWrites, UserUnauthenticatedClass);
  }

  /** `String(e)` for a client error. */
  function ToString(e: ClientError): string {
    ErrorToString(Name(e), Text(if e.Foreign? then Received("") else e.message))
  }
}
