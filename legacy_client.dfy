/**
 * The superseded expiry-gated REST client (lib_vminfo/src/client/api.rs): a
 * service-principal token obtained once at construction, and a `vminfo` call
 * that refuses to use that token once it has expired, builds the older query
 * body, posts it and rejects an empty page.
 *
 * The clock is the parameter `now`; the token exchange and the HTTP post are
 * oracles.
 */
module LegacyClient {
  import opened Wrappers
  import opened Text
  import Query
  import LegacyQuery

  /** `client::error::Kind`. */
  datatype LegacyKind =
    | AccessTokenExpired
    | AccessTokenSPLogin
    | VMNotFound
    | VMRequest

  /** `client::error::Error`: a kind and a message (the wrapped source error is not modelled). */
  datatype LegacyError = LegacyError(kind: LegacyKind, message: string)

  /** `client::auth::AccessToken`: the bearer value and its expiry instant. */
  datatype AccessToken = AccessToken(value: string, expireTime: int)

  datatype RestClient = RestClient(
    tenantId: string,
    clientId: string,
    accessToken: AccessToken,
    subscriptionIds: Option<seq<string>>)

  /** `AccessToken::sp_login(tenant, client, secret)`. */
  type SpLogin = (string, string, string) -> Result<AccessToken, LegacyError>

  /** What the HTTP post of a body with a bearer token gives back. */
  datatype PostReply =
    | NotSent                        // the request could not be sent
    | Unmappable                     // the body did not decode into a response
    | Received(response: Query.QueryResponse)

  /**
   * What `vminfo` builds the body it posts from; the transport is given a
   * request through these, and the JSON body itself is `Body` of them.
   */
  datatype RequestArgs = RequestArgs(
    queryItems: seq<string>, matchRegex: bool, showExtensions: bool,
    skip: Option<U64>, top: Option<U16>, subscriptions: Option<seq<string>>)

  type Transport = (RequestArgs, string) -> PostReply

  const TOKEN_EXPIRED: string := "access token is expired. will not authenticate with resource graph endpoint."
  const POST_FAILED: string := "HTTP request to Resource Graph failed"
  const UNMAPPABLE: string := "HTTP response data from Resource Graph cannot be mapped to struct"
  const NO_RESULTS: string := "no vm results were returned for the specified query"

  /** `RestClient::new`: log in once and keep the identity and filter as given. */
  function New(tenantId: string, clientId: string, clientSecret: string, subscriptionIds: Option<seq<string>>,
               spLogin: SpLogin): (r: Result<RestClient, LegacyError>)
    ensures r.Success? <==> spLogin(tenantId, clientId, clientSecret).Success?
    ensures r.Success? ==> r.value == RestClient(tenantId, clientId, spLogin(tenantId, clientId, clientSecret).value, subscriptionIds)
    ensures r.Failure? ==> r.error == spLogin(tenantId, clientId, clientSecret).error
  {
    match spLogin(tenantId, clientId, clientSecret)
    case Failure(e) => Failure(e)
    case Success(token) => Success(RestClient(tenantId, clientId, token, subscriptionIds))
  }

  predicate Expired(c: RestClient, now: int) {
    now >= c.accessToken.expireTime
  }

  /** The arguments of the body `vminfo` posts: the call's own, with the client's filter. */
  function Args(c: RestClient, queryItems: seq<string>, matchRegex: bool, showExtensions: bool,
                skip: Option<U64>, top: Option<U16>): RequestArgs
  {
    RequestArgs(queryItems, matchRegex, showExtensions, skip, top, c.subscriptionIds)
  }

  /** The body posted for `a`: the older builder's request, which carries the filter. */
  function Body(a: RequestArgs): (b: Query.QueryRequest)
    requires a.matchRegex ==> |a.queryItems| > 0
    ensures b.subscriptions == a.subscriptions
  {
    LegacyQuery.Build(a.queryItems, a.matchRegex, a.showExtensions, a.skip, a.top, a.subscriptions)
  }

  /**
   * `RestClient::vminfo` at instant `now`. A regular-expression query with no
   * operand indexes past the end of the list in the builder, so it is
   * excluded once the expiry gate has been passed.
   */
  function Vminfo(c: RestClient, now: int, post: Transport, queryItems: seq<string>, matchRegex: bool,
                  showExtensions: bool, skip: Option<U64>, top: Option<U16>): (r: Result<Query.QueryResponse, LegacyError>)
    requires !Expired(c, now) && matchRegex ==> |queryItems| > 0
    ensures Expired(c, now) ==> r == Failure(LegacyError(AccessTokenExpired, TOKEN_EXPIRED))
    ensures r.Success? ==> !Expired(c, now) && |r.value.data| > 0
    ensures r.Failure? && !Expired(c, now) ==> r.error.kind == VMRequest || r.error.kind == VMNotFound
  {
    if Expired(c, now) then Failure(LegacyError(AccessTokenExpired, TOKEN_EXPIRED))
    else
      match post(Args(c, queryItems, matchRegex, showExtensions, skip, top), c.accessToken.value)
      case NotSent => Failure(LegacyError(VMRequest, POST_FAILED))
      case Unmappable => Failure(LegacyError(VMRequest, UNMAPPABLE))
      case Received(resp) =>
        if |resp.data| == 0 then Failure(LegacyError(VMNotFound, NO_RESULTS)) else Success(resp)
  }

  /**
   * Once the token has expired, `vminfo` fails with `AccessTokenExpired`
   * whatever the transport would have answered: no request is built or sent.
   */
  lemma ExpiredNoRequest(c: RestClient, now: int, post1: Transport, post2: Transport, queryItems: seq<string>,
                         matchRegex: bool, showExtensions: bool, skip: Option<U64>, top: Option<U16>)
    requires Expired(c, now)
    ensures Vminfo(c, now, post1, queryItems, matchRegex, showExtensions, skip, top)
         == Vminfo(c, now, post2, queryItems, matchRegex, showExtensions, skip, top)
         == Failure(LegacyError(AccessTokenExpired, TOKEN_EXPIRED))
  {
  }

  /**
   * Before expiry, exactly one body is posted, carrying the client's filter
   * and bearer token; a non-empty page is returned unchanged, an empty one is
   * `VMNotFound`, and transport failures are `VMRequest`.
   */
  lemma LiveOutcome(c: RestClient, now: int, post: Transport, queryItems: seq<string>, matchRegex: bool,
                    showExtensions: bool, skip: Option<U64>, top: Option<U16>)
    requires !Expired(c, now)
    requires matchRegex ==> |queryItems| > 0
    ensures var args := Args(c, queryItems, matchRegex, showExtensions, skip, top);
      var reply := post(args, c.accessToken.value);
      var r := Vminfo(c, now, post, queryItems, matchRegex, showExtensions, skip, top);
      args.subscriptions == c.subscriptionIds
      && (reply.Received? && |reply.response.data| > 0 <==> r.Success?)
      && (r.Success? ==> r.value == reply.response)
      && (reply.Received? && |reply.response.data| == 0 ==> r == Failure(LegacyError(VMNotFound, NO_RESULTS)))
      && (!reply.Received? ==> r.Failure? && r.error.kind == VMRequest)
  {
  }

  /** A client built by `new` sends the filter it was given with every request. */
  lemma NewClientFilter(tenantId: string, clientId: string, clientSecret: string, subscriptionIds: Option<seq<string>>,
                        spLogin: SpLogin, queryItems: seq<string>, matchRegex: bool, showExtensions: bool,
                        skip: Option<U64>, top: Option<U16>)
    requires matchRegex ==> |queryItems| > 0
    requires New(tenantId, clientId, clientSecret, subscriptionIds, spLogin).Success?
    ensures var c := New(tenantId, clientId, clientSecret, subscriptionIds, spLogin).value;
      Body(Args(c, queryItems, matchRegex, showExtensions, skip, top)).subscriptions == subscriptionIds
      && c.tenantId == tenantId && c.clientId == clientId
  {
  }
}
