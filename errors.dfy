/**
 * The error taxonomy of lib_vminfo (lib_vminfo/src/error.rs): the kinds of
 * authentication failure, the error kinds the orchestrator dispatches on,
 * their HTTP status codes, the constructors and the `Display` rendering.
 */
module Errors {
  import opened Wrappers
  import opened Text

  datatype AuthErrorKind =
    | BadCredentials  // credentials were not accepted
    | MissingToken    // an access or refresh token is missing
    | TokenExpired    // the access token has expired
    | BadRefresh      // a refresh token could not be exchanged
    | BadRequest      // malformed authentication configuration or request
    | AccessDenied    // permissions not valid

  /** `reqwest::StatusCode`: a three-digit HTTP status. */
  type StatusCode = c: nat | 100 <= c < 1000 witness 200

  const BAD_REQUEST: StatusCode := 400
  const UNAUTHORIZED: StatusCode := 401
  const FORBIDDEN: StatusCode := 403

  /** `From<AuthErrorKind> for StatusCode`. */
  function StatusOf(k: AuthErrorKind): (s: StatusCode)
    ensures s == FORBIDDEN <==> k == AccessDenied
    ensures s == BAD_REQUEST <==> k == BadRequest
    ensures s == UNAUTHORIZED <==> k in {BadCredentials, BadRefresh, MissingToken, TokenExpired}
  {
    match k
    case AccessDenied => FORBIDDEN
    case BadCredentials => UNAUTHORIZED
    case BadRefresh => UNAUTHORIZED
    case MissingToken => UNAUTHORIZED
    case TokenExpired => UNAUTHORIZED
    case BadRequest => BAD_REQUEST
  }

  /** `Display for AuthErrorKind`. */
  function Describe(k: AuthErrorKind): string {
    match k
    case BadCredentials => "Bad credentials provided"
    case MissingToken => "Access or refresh token missing"
    case TokenExpired => "Access token is expired"
    case BadRefresh => "Failed to refresh access"
    case BadRequest => "Bad authentication / authorization request"
    case AccessDenied => "Access denied"
  }

  /** Each kind of authentication failure has its own description. */
  lemma DescriptionsDistinct(k1: AuthErrorKind, k2: AuthErrorKind)
    requires Describe(k1) == Describe(k2)
    ensures k1 == k2
  {
  }

  datatype Kind =
    | ClientCreateError
    | AuthenticationError(authKind: AuthErrorKind)
    | NoneFoundError
    | RequestError(status: Option<StatusCode>)
    | Other

  /**
   * The library's error: a kind and a message. The wrapped source error is
   * a third-party value and is not part of this model.
   */
  datatype Error = Error(kind: Kind, message: string)

  /** `Error::new`. */
  function NewError(kind: Kind, message: string): (e: Error)
    ensures KindOf(e) == kind
    ensures e.message == message
  {
    Error(kind, message)
  }

  /** `Error::kind`. */
  function KindOf(e: Error): Kind {
    e.kind
  }

  /** `error::auth`. */
  function Auth(k: AuthErrorKind, message: string): (e: Error)
    ensures KindOf(e) == AuthenticationError(k) && e.message == message
  {
    NewError(AuthenticationError(k), message)
  }

  /** `error::client_config`. */
  function ClientConfig(message: string): (e: Error)
    ensures KindOf(e) == ClientCreateError && e.message == message
  {
    NewError(ClientCreateError, message)
  }

  /** `error::none_found`. */
  function NoneFound(message: string): (e: Error)
    ensures KindOf(e) == NoneFoundError && e.message == message
  {
    NewError(NoneFoundError, message)
  }

  /** `error::request`. */
  function Request(status: Option<StatusCode>, message: string): (e: Error)
    ensures KindOf(e) == RequestError(status) && e.message == message
  {
    NewError(RequestError(status), message)
  }

  /** `error::other`. */
  function OtherError(message: string): (e: Error)
    ensures KindOf(e) == Other && e.message == message
  {
    NewError(Other, message)
  }

  /**
   * The reason phrase `StatusCode`'s `Display` appends to the number; the
   * table covers the statuses this library produces and the common
   * transport ones.
   */
  function CanonicalReason(s: StatusCode): string {
    if s == 400 then "Bad Request"
    else if s == 401 then "Unauthorized"
    else if s == 403 then "Forbidden"
    else if s == 404 then "Not Found"
    else if s == 408 then "Request Timeout"
    else if s == 429 then "Too Many Requests"
    else if s == 500 then "Internal Server Error"
    else if s == 502 then "Bad Gateway"
    else if s == 503 then "Service Unavailable"
    else if s == 504 then "Gateway Timeout"
    else "<unknown status code>"
  }

  function StatusText(s: StatusCode): string {
    Decimal(s) + " " + CanonicalReason(s)
  }

  /** The text `Display for Error` writes before the message. */
  function KindPrefix(k: Kind): string {
    match k
    case ClientCreateError => "client creation error"
    case AuthenticationError(aek) => "authentication error (" + Describe(aek) + ")"
    case NoneFoundError => "no vm found error"
    case RequestError(s) => "HTTP request error. " + (if s.None? then "NO_STATUS" else StatusText(s.value))
    case Other => "unknown error"
  }

  /** `Display for Error`: the kind's prefix, a colon, then the message. */
  function Display(e: Error): string {
    KindPrefix(e.kind) + ": " + e.message
  }

  /** The message can be read back from the rendering. */
  lemma DisplayEndsWithMessage(e: Error)
    ensures var r := Display(e); |r| >= |e.message| && r[|r| - |e.message|..] == e.message
  {
  }

  /** A request error without a status renders `HTTP request error. NO_STATUS`. */
  lemma DisplayRequestWithoutStatus(m: string)
    ensures Display(Request(None, m)) == "HTTP request error. NO_STATUS: " + m
  {
  }

  /** An authentication error renders its kind's description in parentheses. */
  lemma DisplayAuthentication(k: AuthErrorKind, m: string)
    ensures Display(Auth(k, m)) == "authentication error (" + Describe(k) + "): " + m
  {
  }

  /** `403 Forbidden`, as `StatusCode` renders it. */
  lemma ForbiddenText()
    ensures StatusText(FORBIDDEN) == "403 Forbidden"
  {
    assert Decimal(4) == "4";
    assert Decimal(40) == Decimal(4) + [DigitChar(0)] == "40";
    assert Decimal(403) == Decimal(40) + [DigitChar(3)] == "403";
  }

  /** With a status, a request error renders the status number and its reason. */
  lemma DisplayRequestWithStatus(m: string)
    ensures Display(Request(Some(FORBIDDEN), m)) == "HTTP request error. 403 Forbidden: " + m
  {
    ForbiddenText();
    assert KindPrefix(RequestError(Some(FORBIDDEN))) == "HTTP request error. 403 Forbidden";
    assert "HTTP request error. 403 Forbidden" + ": " == "HTTP request error. 403 Forbidden: ";
  }
}
