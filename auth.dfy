/**
 * Token handling of lib_vminfo (lib_vminfo/src/auth.rs, and the `AuthTokens`
 * pair of lib_vminfo/src/lib.rs): the token pair and the stored credential
 * record, the authentication methods, the OAuth 2.0 configuration, Azure's
 * token response with its expiry kept as a decimal string, and the error
 * decisions of the three token exchanges. The exchanges themselves (the
 * client-credentials grant of section 4.4 of RFC 6749, the device
 * authorization grant of RFC 8628 and the refresh of section 6 of RFC 6749)
 * are functions supplied by the caller.
 */
module Auth {
  import opened Wrappers
  import opened Text
  import opened Errors

  /** An OAuth 2.0 access token and, for user-delegated sessions, a refresh token. */
  datatype AuthTokens = AuthTokens(accessToken: string, refreshToken: Option<string>)

  /** `Default for AuthTokens`. */
  function DefaultAuthTokens(): (t: AuthTokens)
    ensures t.accessToken == "XXX" && t.refreshToken.None?
  {
    AuthTokens("XXX", None)
  }

  /** The record the credential store holds: the identity and its tokens. */
  datatype AzCredentials = AzCredentials(
    tenantId: string,
    clientId: string,
    clientSecret: Option<string>,
    tokens: AuthTokens)

  datatype Method = DeviceCode | ClientCredentials

  /** `Display for Method`. */
  function MethodName(m: Method): (r: string)
    ensures r == "DeviceCode" <==> m == DeviceCode
    ensures r == "ClientCredentials" <==> m == ClientCredentials
  {
    match m
    case DeviceCode => "DeviceCode"
    case ClientCredentials => "ClientCredentials"
  }

  // ---------------------------------------------------------------------
  // Configuration
  // ---------------------------------------------------------------------

  const MANAGEMENT_SCOPE: string := "https://management.core.windows.net/"

  datatype Configuration = Configuration(
    tenantId: string,
    clientId: string,
    clientSecret: Option<string>,
    scopes: seq<string>)

  /** `Default for Configuration`. */
  function DefaultConfiguration(): (c: Configuration)
    ensures c.tenantId == "XXX" && c.clientId == "XXX" && c.clientSecret == Some("XXX")
    ensures c.scopes == [MANAGEMENT_SCOPE]
  {
    Configuration("XXX", "XXX", Some("XXX"), [MANAGEMENT_SCOPE])
  }

  /** `Configuration::new`: the identity verbatim, the default scopes. */
  function NewConfiguration(tenantId: string, clientId: string, clientSecret: Option<string>): (c: Configuration)
    ensures c.tenantId == tenantId && c.clientId == clientId && c.clientSecret == clientSecret
    ensures c.scopes == [MANAGEMENT_SCOPE]
  {
    Configuration(tenantId, clientId, clientSecret, DefaultConfiguration().scopes)
  }

  // ---------------------------------------------------------------------
  // Token responses
  // ---------------------------------------------------------------------

  type Nanos = n: nat | n < 1_000_000_000

  /** `std::time::Duration`: whole seconds and the nanoseconds beyond them. */
  datatype Duration = Duration(secs: U64, nanos: Nanos)

  function WholeSeconds(d: Duration): (w: Duration)
    ensures w.secs == d.secs && w.nanos == 0
  {
    Duration(d.secs, 0)
  }

  datatype BasicTokenType = Bearer | Mac | Extension(name: string)

  datatype EmptyExtraTokenFields = EmptyExtraTokenFields

  /** The oauth2 library's standard token response, as a value. */
  datatype StandardTokenResponse<EF, TT> = StandardTokenResponse(
    accessToken: string,
    tokenType: TT,
    expiresIn: Option<Duration>,
    refreshToken: Option<string>,
    scopes: Option<seq<string>>,
    extraFields: EF)

  type BasicTokenResponse = StandardTokenResponse<EmptyExtraTokenFields, BasicTokenType>

  /** How `expires_in` is stored: the whole seconds, in decimal. */
  function SecondsText(d: Option<Duration>): (t: Option<string>)
    ensures t.Some? <==> d.Some?
  {
    match d
    case None => None
    case Some(exp) => Some(Decimal(exp.secs))
  }

  /** How `expires_in()` reads the stored text back (`parse::<u64>().unwrap()`). */
  function ParsedExpiry(t: Option<string>): (d: Option<Duration>)
    requires t.Some? ==> ParseU64(t.value).Some?
    ensures d.Some? <==> t.Some?
  {
    match t
    case None => None
    case Some(text) => Some(Duration(ParseU64(text).value, 0))
  }

  /**
   * Storing an expiry and reading it back gives the duration truncated to
   * whole seconds.
   */
  lemma ExpiryRoundTrip(d: Option<Duration>)
    ensures var t := SecondsText(d); t.Some? ==> ParseU64(t.value).Some?
    ensures ParsedExpiry(SecondsText(d)) == if d.Some? then Some(WholeSeconds(d.value)) else None
  {
    if d.Some? {
      ParseDecimal(d.value.secs);
    }
  }

  /**
   * `AzureTokenResponse`: a token response whose `expires_in` is held as a
   * decimal string, because Azure sends it as one.
   */
  class AzureTokenResponse<EF, TT> {
    var accessToken: string
    var tokenType: TT
    var expiresIn: Option<string>
    var refreshToken: Option<string>
    var scopes: Option<seq<string>>
    var extraFields: EF

    /** Every stored expiry parses as a `u64`, so `ExpiresIn` cannot panic. */
    ghost predicate Valid()
      reads this
    {
      expiresIn.Some? ==> ParseU64(expiresIn.value).Some?
    }

    /** `AzureTokenResponse::new`. */
    constructor New(accessToken: string, tokenType: TT, extraFields: EF)
      ensures Valid()
      ensures this.accessToken == accessToken && this.tokenType == tokenType
      ensures this.extraFields == extraFields
      ensures expiresIn.None? && refreshToken.None? && scopes.None?
    {
      this.accessToken := accessToken;
      this.tokenType := tokenType;
      this.extraFields := extraFields;
      expiresIn := None;
      refreshToken := None;
      scopes := None;
    }

    /** `From<StandardTokenResponse>`. */
    constructor From(st: StandardTokenResponse<EF, TT>)
      ensures Valid()
      ensures accessToken == st.accessToken && tokenType == st.tokenType
      ensures refreshToken == st.refreshToken && scopes == st.scopes
      ensures extraFields == st.extraFields
      ensures ExpiresIn() == if st.expiresIn.Some? then Some(WholeSeconds(st.expiresIn.value)) else None
    {
      accessToken := st.accessToken;
      tokenType := st.tokenType;
      expiresIn := SecondsText(st.expiresIn);
      refreshToken := st.refreshToken;
      scopes := st.scopes;
      extraFields := st.extraFields;
      new;
      ExpiryRoundTrip(st.expiresIn);
    }

    method SetAccessToken(accessToken: string)
      requires Valid()
      modifies this
      ensures Valid() && this.accessToken == accessToken
      ensures unchanged(this`tokenType, this`expiresIn, this`refreshToken, this`scopes, this`extraFields)
    {
      this.accessToken := accessToken;
    }

    method SetTokenType(tokenType: TT)
      requires Valid()
      modifies this
      ensures Valid() && this.tokenType == tokenType
      ensures unchanged(this`accessToken, this`expiresIn, this`refreshToken, this`scopes, this`extraFields)
    {
      this.tokenType := tokenType;
    }

    method SetExpiresIn(expiresIn: Option<Duration>)
      requires Valid()
      modifies this
      ensures Valid()
      ensures ExpiresIn() == if expiresIn.Some? then Some(WholeSeconds(expiresIn.value)) else None
      ensures unchanged(this`accessToken, this`tokenType, this`refreshToken, this`scopes, this`extraFields)
    {
      this.expiresIn := SecondsText(expiresIn);
      ExpiryRoundTrip(expiresIn);
    }

    method SetRefreshToken(refreshToken: Option<string>)
      requires Valid()
      modifies this
      ensures Valid() && this.refreshToken == refreshToken
      ensures unchanged(this`accessToken, this`tokenType, this`expiresIn, this`scopes, this`extraFields)
    {
      this.refreshToken := refreshToken;
    }

    method SetScopes(scopes: Option<seq<string>>)
      requires Valid()
      modifies this
      ensures Valid() && this.scopes == scopes
      ensures unchanged(this`accessToken, this`tokenType, this`expiresIn, this`refreshToken, this`extraFields)
    {
      this.scopes := scopes;
    }

    method SetExtraFields(extraFields: EF)
      requires Valid()
      modifies this
      ensures Valid() && this.extraFields == extraFields
      ensures unchanged(this`accessToken, this`tokenType, this`expiresIn, this`refreshToken, this`scopes)
    {
      this.extraFields := extraFields;
    }

    function AccessToken(): string
      reads this
    {
      accessToken
    }

    function TokenType(): TT
      reads this
    {
      tokenType
    }

    /** `TokenResponse::expires_in`: the stored seconds parsed back. */
    function ExpiresIn(): (d: Option<Duration>)
      reads this
      requires Valid()
      ensures d.Some? <==> expiresIn.Some?
      ensures d.Some? ==> d.value.nanos == 0 && ParseU64(expiresIn.value) == Some(d.value.secs)
    {
      ParsedExpiry(expiresIn)
    }

    function RefreshToken(): Option<string>
      reads this
    {
      refreshToken
    }

    function Scopes(): Option<seq<string>>
      reads this
    {
      scopes
    }

    function ExtraFields(): EF
      reads this
    {
      extraFields
    }
  }

  // ---------------------------------------------------------------------
  // Token exchanges
  // ---------------------------------------------------------------------

  /** The token pair a successful exchange yields. */
  function TokensOf(r: BasicTokenResponse): (t: AuthTokens)
    ensures t.accessToken == r.accessToken && t.refreshToken == r.refreshToken
  {
    AuthTokens(r.accessToken, r.refreshToken)
  }

  const CLIENT_CREDENTIALS_REJECTED: string := "invalid tenant_id and client_id or secret combination provided"

  /**
   * `login_non_interactive`: the client-credentials grant, performed by
   * `exchange`, which yields the server's token response or nothing when
   * the request is rejected.
   */
  function LoginNonInteractive(conf: Configuration, exchange: Configuration -> Option<BasicTokenResponse>)
    : (r: Result<AuthTokens, Error>)
    ensures r.Success? <==> exchange(conf).Some?
    ensures r.Success? ==> r.value == TokensOf(exchange(conf).value)
    ensures r.Failure? ==> r.error == Auth(BadCredentials, CLIENT_CREDENTIALS_REJECTED)
  {
    match exchange(conf)
    case None => Failure(Auth(BadCredentials, CLIENT_CREDENTIALS_REJECTED))
    case Some(resp) => Success(TokensOf(resp))
  }

  /** Where the device authorization grant stopped, or the tokens it obtained. */
  datatype DeviceCodeOutcome =
    | SetupRejected       // the device-code exchange could not be configured
    | DetailsFailed       // the device authorization request failed
    | AuthorizationFailed // the user did not complete authorization, or it expired
    | Authorized(response: BasicTokenResponse)

  const DEVICE_SETUP_FAILED: string := "failed to configure exchange device code for interactive authentication"
  const DEVICE_DETAILS_FAILED: string := "failed to get device code details for interactive authentication"
  const DEVICE_AUTH_FAILED: string := "could not authenticate user with devicecode auth"

  /**
   * `login_interactive`: the device authorization grant, performed by
   * `flow`; every way it can fail is a `BadRequest`.
   */
  function LoginInteractive(conf: Configuration, flow: Configuration -> DeviceCodeOutcome)
    : (r: Result<AuthTokens, Error>)
    ensures r.Success? <==> flow(conf).Authorized?
    ensures r.Success? ==> r.value == TokensOf(flow(conf).response)
    ensures r.Failure? ==> KindOf(r.error) == AuthenticationError(BadRequest)
  {
    match flow(conf)
    case SetupRejected => Failure(Auth(BadRequest, DEVICE_SETUP_FAILED))
    case DetailsFailed => Failure(Auth(BadRequest, DEVICE_DETAILS_FAILED))
    case AuthorizationFailed => Failure(Auth(BadRequest, DEVICE_AUTH_FAILED))
    case Authorized(resp) => Success(TokensOf(resp))
  }

  const NO_REFRESH_TOKEN: string := "access token is expired and failed to exchange refresh token. reauthentication is required"
  const REFRESH_REJECTED: string := "refresh token provided could not be used to obtain a new access token"
  const REFRESH_WITHOUT_REFRESH_TOKEN: string := "no refresh token supplied with login ... this is unusable"

  /** The refresh grant for a tenant and client: the response, or nothing when rejected. */
  type RefreshExchange = (string, string, string) -> Option<BasicTokenResponse>

  /**
   * What `exchange_refresh_tokens` returns: no refresh token, or a rejected
   * exchange, is `BadRefresh`; a response without a new refresh token is
   * `MissingToken`; otherwise the new pair.
   */
  function RefreshTokens(tenantId: string, clientId: string, refreshToken: Option<string>, exchange: RefreshExchange)
    : (r: Result<AuthTokens, Error>)
    ensures refreshToken.None? ==> r == Failure(Auth(BadRefresh, NO_REFRESH_TOKEN))
    ensures refreshToken.Some? && exchange(tenantId, clientId, refreshToken.value).None? ==>
              r == Failure(Auth(BadRefresh, REFRESH_REJECTED))
    ensures refreshToken.Some? && exchange(tenantId, clientId, refreshToken.value).Some? ==>
              var resp := exchange(tenantId, clientId, refreshToken.value).value;
              r == if resp.refreshToken.None? then Failure(Auth(MissingToken, REFRESH_WITHOUT_REFRESH_TOKEN))
                   else Success(AuthTokens(resp.accessToken, resp.refreshToken))
    ensures r.Success? ==> r.value.refreshToken.Some?
  {
    match refreshToken
    case None => Failure(Auth(BadRefresh, NO_REFRESH_TOKEN))
    case Some(rt) =>
      match exchange(tenantId, clientId, rt)
      case None => Failure(Auth(BadRefresh, REFRESH_REJECTED))
      case Some(resp) =>
        if resp.refreshToken.None? then Failure(Auth(MissingToken, REFRESH_WITHOUT_REFRESH_TOKEN))
        else Success(AuthTokens(resp.accessToken, resp.refreshToken))
  }

  /**
   * `exchange_refresh_tokens`: starts from a placeholder response, replaces
   * it with the server's answer, then insists the answer carries a new
   * refresh token. The source reads the reply straight into an
   * `AzureTokenResponse`; the exchange here hands over the reply's fields,
   * and the field-copying `From` constructor stands in for that reading.
   */
  method ExchangeRefreshTokens(tenantId: string, clientId: string, refreshToken: Option<string>, exchange: RefreshExchange)
    returns (r: Result<AuthTokens, Error>)
    ensures r == RefreshTokens(tenantId, clientId, refreshToken, exchange)
  {
    var tokenResult := new AzureTokenResponse<EmptyExtraTokenFields, BasicTokenType>.New("s", Bearer, EmptyExtraTokenFields);
    if refreshToken.Some? {
      var reply := exchange(tenantId, clientId, refreshToken.value);
      if reply.None? {
        return Failure(Auth(BadRefresh, REFRESH_REJECTED));
      }
      tokenResult := new AzureTokenResponse<EmptyExtraTokenFields, BasicTokenType>.From(reply.value);
    } else {
      return Failure(Auth(BadRefresh, NO_REFRESH_TOKEN));
    }
    match tokenResult.RefreshToken()
    case Some(rt) =>
      r := Success(AuthTokens(tokenResult.AccessToken(), Some(rt)));
    case None =>
      r := Failure(Auth(MissingToken, REFRESH_WITHOUT_REFRESH_TOKEN));
  }
}
