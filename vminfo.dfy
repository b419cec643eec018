/**
 * The authenticated query orchestrator of lib_vminfo (lib_vminfo/src/lib.rs).
 *
 * A client holds an identity (tenant, client id, optional secret), a
 * credential store holding at most one saved record, and an optional result
 * cache mapping lower-cased VM names to records. Everything outside the
 * process is a `Services` value: the two OAuth 2.0 grants, the refresh grant,
 * the Resource Graph endpoint and the cache's write path. Each of them is
 * given the number of external calls made so far, so later answers may
 * differ from earlier ones. The model also keeps a log of those calls, which
 * is how "no exchange happens" or "exactly one retry" are stated.
 *
 * The pure `...Step` functions say what each operation does to a `State`;
 * the `Client` class performs the same operations by updating its fields and
 * is proved to agree with them.
 */
module Vminfo {
  import opened Wrappers
  import opened Text
  import opened Errors
  import opened Auth
  import Query

  type VirtualMachine = Query.VirtualMachine
  type QueryResponse = Query.QueryResponse

  /** The identity and filter a client is built with; they never change. */
  datatype Settings = Identity(
    tenantId: string,
    clientId: string,
    clientSecret: Option<string>,
    subscriptions: Option<seq<string>>)

  /** An external call, as the log records it. */
  datatype Call =
    | ClientCredentialsGrant(conf: Configuration)
    | DeviceCodeGrant(conf: Configuration)
    | RefreshGrant(tenantId: string, clientId: string, refreshToken: string)
    | GraphRequest(request: RequestArgs, accessToken: string)
    | CacheGet(key: string)
    | CachePut(key: string, vm: VirtualMachine)

  /** What the Resource Graph endpoint answers to one request. */
  datatype GraphReply =
    | SendFailed(sendStatus: Option<StatusCode>)     // the request could not be sent
    | DecodeFailed(decodeStatus: Option<StatusCode>) // the body was not a valid response
    | VendorError(code: string, message: string)     // Azure's `{ "error": { code, message } }`
    | Page(response: QueryResponse)

  /** The outside world, each service given the number of calls made before it. */
  datatype Services = Services(
    clientCredentials: nat -> Configuration -> Option<BasicTokenResponse>,
    deviceCode: nat -> Configuration -> DeviceCodeOutcome,
    refresh: nat -> RefreshExchange,
    resourceGraph: nat -> (RequestArgs, string) -> GraphReply,
    cachePut: nat -> (string, VirtualMachine) -> Option<Error>)

  predicate Named(reply: GraphReply) {
    reply.Page? ==> forall i :: 0 <= i < |reply.response.data| ==> reply.response.data[i].vmName.Some?
  }

  /**
   * Every VM the endpoint returns carries a name. The code unwraps the name
   * to form the cache key, which it does only when the client has a cache;
   * without a cache a page is returned as it is, named or not.
   */
  ghost predicate NamedPages(sv: Services) {
    forall n: nat, request: RequestArgs, token: string :: Named(sv.resourceGraph(n)(request, token))
  }

  /** The mutable part of a client: the saved credentials, the cache and the call log. */
  datatype State = Snapshot(
    store: Option<AzCredentials>,
    cache: Option<map<string, VirtualMachine>>,
    calls: seq<Call>)

  /** An operation's result together with the state it leaves. */
  datatype Step<+T> = Step(result: Result<T, Error>, state: State)

  /** `access_token()`: the access token of the saved record, if any. */
  function AccessToken(st: State): (t: Option<string>)
    ensures t.Some? <==> st.store.Some?
    ensures t.Some? ==> t.value == st.store.value.tokens.accessToken
  {
    if st.store.Some? then Some(st.store.value.tokens.accessToken) else None
  }

  const UNREADABLE_CREDENTIALS: string := "could not read credentials from file."

  /** `load_credentials`: the saved record, or `MissingToken` when there is none. */
  function LoadCredentials(st: State): (r: Result<AzCredentials, Error>)
    ensures r.Success? <==> st.store.Some?
    ensures r.Success? ==> r.value == st.store.value
    ensures r.Failure? ==> r.error == Errors.Auth(MissingToken, UNREADABLE_CREDENTIALS)
  {
    if st.store.Some? then Success(st.store.value) else Failure(Errors.Auth(MissingToken, UNREADABLE_CREDENTIALS))
  }

  /** `save_credentials`: the client's identity with exactly the given tokens. */
  function Saved(s: Settings, tokens: AuthTokens, st: State): (st': State)
    ensures st'.store == Some(AzCredentials(s.tenantId, s.clientId, s.clientSecret, tokens))
    ensures st'.cache == st.cache && st'.calls == st.calls
  {
    st.(store := Some(AzCredentials(s.tenantId, s.clientId, s.clientSecret, tokens)))
  }

  /** `auth_method`: a secret means the client-credentials grant. */
  function MethodOf(s: Settings): (m: Method)
    ensures m == ClientCredentials <==> s.clientSecret.Some?
    ensures m == DeviceCode <==> s.clientSecret.None?
  {
    match s.clientSecret
    case Some(_) => ClientCredentials
    case None => DeviceCode
  }

  function Log(st: State, c: Call): (st': State)
    ensures st'.calls == st.calls + [c] && st'.store == st.store && st'.cache == st.cache
  {
    st.(calls := st.calls + [c])
  }

  // ---------------------------------------------------------------------
  // Logging in
  // ---------------------------------------------------------------------

  /**
   * `login_client_credentials(force)`: with a saved access token and no
   * force, nothing happens; otherwise one client-credentials grant, and
   * on success the tokens are saved.
   */
  function LoginClientCredentialsStep(s: Settings, sv: Services, force: bool, st: State): (t: Step<()>)
    ensures t.state.cache == st.cache
    ensures t.result.Failure? ==> t.state.store == st.store
  {
    if !force && AccessToken(st).Some? then Step(Success(()), st)
    else
      var conf := NewConfiguration(s.tenantId, s.clientId, s.clientSecret);
      var st1 := Log(st, ClientCredentialsGrant(conf));
      match LoginNonInteractive(conf, sv.clientCredentials(|st.calls|))
      case Failure(e) => Step(Failure(e), st1)
      case Success(tokens) => Step(Success(()), Saved(s, tokens, st1))
  }

  /** `login_device_code(force)`: the same gate, with the device grant and no secret. */
  function LoginDeviceCodeStep(s: Settings, sv: Services, force: bool, st: State): (t: Step<()>)
    ensures t.state.cache == st.cache
    ensures t.result.Failure? ==> t.state.store == st.store
  {
    if !force && AccessToken(st).Some? then Step(Success(()), st)
    else
      var conf := NewConfiguration(s.tenantId, s.clientId, None);
      var st1 := Log(st, DeviceCodeGrant(conf));
      match LoginInteractive(conf, sv.deviceCode(|st.calls|))
      case Failure(e) => Step(Failure(e), st1)
      case Success(tokens) => Step(Success(()), Saved(s, tokens, st1))
  }

  /** `reauth`: a forced login with the client's own method. */
  function ReauthStep(s: Settings, sv: Services, st: State): (t: Step<()>)
    ensures t.state.cache == st.cache
    ensures |t.state.calls| == |st.calls| + 1 && t.state.calls[..|st.calls|] == st.calls
  {
    match MethodOf(s)
    case ClientCredentials => LoginClientCredentialsStep(s, sv, true, st)
    case DeviceCode => LoginDeviceCodeStep(s, sv, true, st)
  }

  /**
   * `exchange_refresh_token`: the saved refresh token is exchanged for a new
   * pair, which is saved. The grant is only attempted when there is a refresh
   * token to send.
   */
  function ExchangeRefreshTokenStep(s: Settings, sv: Services, st: State): (t: Step<AuthTokens>)
    ensures t.state.cache == st.cache
    ensures t.result.Failure? ==> t.state.store == st.store
    ensures t.result.Success? ==> t.state.store.Some? && t.state.store.value.tokens == t.result.value
  {
    match LoadCredentials(st)
    case Failure(e) => Step(Failure(e), st)
    case Success(saved) =>
      var rt := saved.tokens.refreshToken;
      var st1 := if rt.Some? then Log(st, RefreshGrant(s.tenantId, s.clientId, rt.value)) else st;
      match RefreshTokens(s.tenantId, s.clientId, rt, sv.refresh(|st.calls|))
      case Failure(e) => Step(Failure(e), st1)
      case Success(tokens) => Step(Success(tokens), Saved(s, tokens, st1))
  }

  // ---------------------------------------------------------------------
  // One request
  // ---------------------------------------------------------------------

  const NO_ACCESS_TOKEN: string := "no access token provided for request"
  const SEND_FAILED: string := "request for vm info from Resource Graph failed"
  const DECODE_FAILED: string := "could not parse vm info into valid response object"
  const NONE_FOUND_PREFIX: string := "no virtual machines were found with the provided query: "

  /** The authentication error kind for an Azure error code. */
  function VendorKind(code: string): (k: AuthErrorKind)
    ensures code == "ExpiredAuthenticationToken" <==> k == TokenExpired
    ensures code == "InvalidAuthenticationToken" <==> k == BadCredentials
    ensures code == "AccessDenied" <==> k == AccessDenied
    ensures k in {TokenExpired, BadCredentials, AccessDenied, BadRequest}
  {
    if code == "ExpiredAuthenticationToken" then TokenExpired
    else if code == "InvalidAuthenticationToken" then BadCredentials
    else if code == "AccessDenied" then AccessDenied
    else BadRequest
  }

  /** `{:?}` of a list of names: `["a", "b"]` (escape sequences are not modelled). */
  function DebugList(items: seq<string>): string {
    "[" + Join(", ", seq(|items|, i requires 0 <= i < |items| => "\"" + items[i] + "\"")) + "]"
  }

  /** The cache key of a VM: its lower-cased name. */
  function Key(vm: VirtualMachine): (k: string)
    requires vm.vmName.Some?
    ensures ToLower(k) == k
    ensures |k| == |vm.vmName.value|
  {
    ToLowerIdempotent(vm.vmName.value);
    ToLower(vm.vmName.value)
  }

  predicate AllNamed(vms: seq<VirtualMachine>) {
    forall i :: 0 <= i < |vms| ==> vms[i].vmName.Some?
  }

  /**
   * The write-back loop: each VM is put under its key, in order; the first
   * failing put ends the loop with its error.
   */
  function PutAllStep(sv: Services, vms: seq<VirtualMachine>, st: State): (t: Step<()>)
    requires st.cache.Some? && AllNamed(vms)
    decreases |vms|
    ensures t.state.store == st.store && t.state.cache.Some?
    ensures |st.calls| <= |t.state.calls| <= |st.calls| + |vms|
  {
    if |vms| == 0 then Step(Success(()), st)
    else
      var key := Key(vms[0]);
      var st1 := Log(st, CachePut(key, vms[0]));
      match sv.cachePut(|st.calls|)(key, vms[0])
      case Some(e) => Step(Failure(e), st1)
      case None => PutAllStep(sv, vms[1..], st1.(cache := Some(st.cache.value[key := vms[0]])))
  }

  /**
   * What `request` builds the body it posts from: the operands, the three
   * switches, the paging and the client's subscription filter. The endpoint
   * and the call log see a request through these; the JSON body itself is
   * `Body` of them.
   */
  datatype RequestArgs = RequestArgs(
    items: seq<string>, matchRegex: bool, showExtensions: bool, showTags: bool,
    skip: Option<U64>, top: Option<U16>, subscriptions: Option<seq<string>>)

  /** The arguments of the request `request` sends for the client `s`. */
  function Args(s: Settings, items: seq<string>, matchRegex: bool, showExtensions: bool, showTags: bool,
                skip: Option<U64>, top: Option<U16>): RequestArgs
  {
    RequestArgs(items, matchRegex, showExtensions, showTags, skip, top, s.subscriptions)
  }

  /** The body posted for `a`: the query builder's request, which carries the filter. */
  function Body(a: RequestArgs): (b: Query.QueryRequest)
    requires a.matchRegex ==> |a.items| > 0
    ensures b.subscriptions == a.subscriptions
    ensures b.options.skipToken.None?
  {
    Query.Build(a.items, a.matchRegex, a.showExtensions, a.showTags, a.skip, a.top, a.subscriptions)
  }

  /** How `request` turns the endpoint's reply into its result. */
  function ReplyStep(sv: Services, items: seq<string>, reply: GraphReply, st: State): (t: Step<QueryResponse>)
    requires st.cache.Some? ==> Named(reply)
    ensures t.state.store == st.store && (t.state.cache.Some? <==> st.cache.Some?)
    ensures t.result.Success? ==> reply.Page? && t.result.value == reply.response && |reply.response.data| > 0
  {
    match reply
    case SendFailed(status) => Step(Failure(Request(status, SEND_FAILED)), st)
    case DecodeFailed(status) => Step(Failure(Request(status, DECODE_FAILED)), st)
    case VendorError(code, message) => Step(Failure(Errors.Auth(VendorKind(code), code + ": " + message)), st)
    case Page(r) =>
      if |r.data| == 0 then Step(Failure(NoneFound(NONE_FOUND_PREFIX + DebugList(items))), st)
      else if st.cache.None? then Step(Success(r), st)
      else
        var put := PutAllStep(sv, r.data, st);
        match put.result
        case Failure(e) => Step(Failure(e), put.state)
        case Success(_) => Step(Success(r), put.state)
  }

  /** `request`: one page from the Resource Graph, written back to the cache. */
  function RequestStep(s: Settings, sv: Services, items: seq<string>, matchRegex: bool, showExtensions: bool,
                       showTags: bool, skip: Option<U64>, top: Option<U16>, st: State): (t: Step<QueryResponse>)
    requires matchRegex ==> |items| > 0
    requires st.cache.Some? ==> NamedPages(sv)
    ensures t.state.store == st.store && (t.state.cache.Some? <==> st.cache.Some?)
    ensures t.result.Success? ==> AccessToken(st).Some? && |t.result.value.data| > 0
  {
    var args := Args(s, items, matchRegex, showExtensions, showTags, skip, top);
    match AccessToken(st)
    case None => Step(Failure(Errors.Auth(MissingToken, NO_ACCESS_TOKEN)), st)
    case Some(token) =>
      var reply := sv.resourceGraph(|st.calls|)(args, token);
      assert st.cache.Some? ==> Named(reply);
      ReplyStep(sv, items, reply, Log(st, GraphRequest(args, token)))
  }

  // ---------------------------------------------------------------------
  // query_vminfo
  // ---------------------------------------------------------------------

  /** The operands whose lower-cased name is not a cache key, in order. */
  function Misses(items: seq<string>, cache: map<string, VirtualMachine>): (r: seq<string>)
    ensures |r| <= |items|
  {
    if |items| == 0 then []
    else
      var q := items[|items| - 1];
      Misses(items[..|items| - 1], cache) + (if ToLower(q) in cache then [] else [q])
  }

  /** The cached records of the operands that are cache keys, in order. */
  function Hits(items: seq<string>, cache: map<string, VirtualMachine>): (r: seq<VirtualMachine>)
    ensures |r| + |Misses(items, cache)| == |items|
  {
    if |items| == 0 then []
    else
      var q := items[|items| - 1];
      Hits(items[..|items| - 1], cache) + (if ToLower(q) in cache then [cache[ToLower(q)]] else [])
  }

  /** One cache lookup per operand, in order. */
  function Lookups(items: seq<string>): (r: seq<Call>)
    ensures |r| == |items|
    ensures forall i :: 0 <= i < |items| ==> r[i] == CacheGet(ToLower(items[i]))
  {
    seq(|items|, i requires 0 <= i < |items| => CacheGet(ToLower(items[i])))
  }

  /** The split of the operands: cached records, operands still to query, and the state after the lookups. */
  datatype Split = Split(hits: seq<VirtualMachine>, misses: seq<string>, state: State)

  function SplitStep(items: seq<string>, nocache: bool, st: State): (sp: Split)
    ensures sp.state.store == st.store && sp.state.cache == st.cache
    ensures |sp.hits| + |sp.misses| == |items| && |sp.state.calls| <= |st.calls| + |items|
  {
    if !nocache && st.cache.Some? then
      Split(Hits(items, st.cache.value), Misses(items, st.cache.value), st.(calls := st.calls + Lookups(items)))
    else
      Split([], items, st)
  }

  /** `len() as u64`. */
  function AsU64(n: nat): (r: U64)
    ensures n < U64_BOUND ==> r == n
  {
    n % U64_BOUND
  }

  /** The response made of cached records only. */
  function CachedResponse(hits: seq<VirtualMachine>): (r: QueryResponse)
    ensures r.data == hits
    ensures |hits| < U64_BOUND ==> r.totalResults == |hits|
  {
    Query.QueryResponse(AsU64(|hits|), hits)
  }

  /** Recovery from a rejected access token: log in again or refresh, then retry once. */
  function RetryStep(s: Settings, sv: Services, recovery: Step<()>, misses: seq<string>, matchRegex: bool,
                     showExtensions: bool, showTags: bool, skip: Option<U64>, top: Option<U16>): (t: Step<QueryResponse>)
    requires matchRegex ==> |misses| > 0
    requires recovery.state.cache.Some? ==> NamedPages(sv)
    ensures t.state.cache.Some? <==> recovery.state.cache.Some?
  {
    match recovery.result
    case Failure(e) => Step(Failure(e), recovery.state)
    case Success(_) => RequestStep(s, sv, misses, matchRegex, showExtensions, showTags, skip, top, recovery.state)
  }

  /** `exchange_refresh_token` seen as a recovery step. */
  function Refreshed(t: Step<AuthTokens>): (r: Step<()>)
    ensures r.state == t.state
    ensures r.result.Success? <==> t.result.Success?
    ensures r.result.Failure? ==> r.result.error == t.result.error
  {
    match t.result
    case Failure(e) => Step(Failure(e), t.state)
    case Success(_) => Step(Success(()), t.state)
  }

  /**
   * The recovery `query_vminfo` attempts after an error of kind `k`: a forced
   * login for a missing token, and for an expired one a forced login with
   * the client-credentials method or a refresh with the device-code method.
   * Other kinds have none.
   */
  function RecoveryStep(s: Settings, sv: Services, k: Kind, st: State): (r: Option<Step<()>>)
    ensures r.Some? <==> k == AuthenticationError(MissingToken) || k == AuthenticationError(TokenExpired)
    ensures r.Some? ==> r.value.state.cache == st.cache
  {
    match k
    case AuthenticationError(MissingToken) => Some(ReauthStep(s, sv, st))
    case AuthenticationError(TokenExpired) =>
      if MethodOf(s) == ClientCredentials then Some(ReauthStep(s, sv, st))
      else Some(Refreshed(ExchangeRefreshTokenStep(s, sv, st)))
    case _ => None
  }

  /** What `query_vminfo` does with the outcome of the first request. */
  function AfterFirstRequest(s: Settings, sv: Services, first: Step<QueryResponse>, hits: seq<VirtualMachine>,
                             misses: seq<string>, matchRegex: bool, showExtensions: bool, showTags: bool,
                             skip: Option<U64>, top: Option<U16>): (t: Step<QueryResponse>)
    requires matchRegex ==> |misses| > 0
    requires first.state.cache.Some? ==> NamedPages(sv)
    ensures t.state.cache.Some? <==> first.state.cache.Some?
  {
    match first.result
    case Success(r) => Step(Success(r.(data := r.data + hits)), first.state)
    case Failure(err) =>
      match RecoveryStep(s, sv, KindOf(err), first.state)
      case Some(recovery) => RetryStep(s, sv, recovery, misses, matchRegex, showExtensions, showTags, skip, top)
      case None =>
        if KindOf(err) == NoneFoundError && |hits| > 0 then Step(Success(CachedResponse(hits)), first.state)
        else Step(Failure(err), first.state)
  }

  /** `query_vminfo`. */
  function QueryVminfoStep(s: Settings, sv: Services, items: seq<string>, matchRegex: bool, showExtensions: bool,
                           showTags: bool, nocache: bool, skip: Option<U64>, top: Option<U16>, st: State): (t: Step<QueryResponse>)
    requires st.cache.Some? ==> NamedPages(sv)
    ensures t.state.cache.Some? <==> st.cache.Some?
  {
    var split := SplitStep(items, nocache, st);
    if |split.misses| == 0 then Step(Success(CachedResponse(split.hits)), split.state)
    else
      var first := RequestStep(s, sv, split.misses, matchRegex, showExtensions, showTags, skip, top, split.state);
      AfterFirstRequest(s, sv, first, split.hits, split.misses, matchRegex, showExtensions, showTags, skip, top)
  }

  /** `Display for Client`: the identity, with the secret and tokens redacted. */
  function DisplayClient(s: Settings, st: State): string {
    "VMInfo Client { tenant_id: " + s.tenantId + ", client_id: " + s.clientId
      + ", client_secret: [redacted], active_tokens: [redacted] }"
  }

  // ---------------------------------------------------------------------
  // Properties
  // ---------------------------------------------------------------------

  /** With a saved access token and no force, a login makes no call and writes nothing. */
  lemma LoginKeepsSession(s: Settings, sv: Services, st: State)
    requires AccessToken(st).Some?
    ensures LoginClientCredentialsStep(s, sv, false, st) == Step(Success(()), st)
    ensures LoginDeviceCodeStep(s, sv, false, st) == Step(Success(()), st)
  {
  }

  /**
   * Otherwise the client-credentials login makes exactly one grant with the
   * client's identity and secret; on success it saves exactly the returned
   * tokens, on failure it saves nothing and reports `BadCredentials`.
   */
  lemma ClientCredentialsLogin(s: Settings, sv: Services, force: bool, st: State)
    requires force || AccessToken(st).None?
    ensures var conf := NewConfiguration(s.tenantId, s.clientId, s.clientSecret);
      var resp := sv.clientCredentials(|st.calls|)(conf);
      var t := LoginClientCredentialsStep(s, sv, force, st);
      t.state.calls == st.calls + [ClientCredentialsGrant(conf)] && t.state.cache == st.cache
      && (t.result.Success? <==> resp.Some?)
      && (resp.Some? ==> t.state.store == Some(AzCredentials(s.tenantId, s.clientId, s.clientSecret, TokensOf(resp.value))))
      && (resp.None? ==> t.state.store == st.store && KindOf(t.result.error) == AuthenticationError(BadCredentials))
  {
  }

  /**
   * The device-code login makes exactly one device grant without a secret;
   * the saved record still carries the client's own secret setting.
   */
  lemma DeviceCodeLogin(s: Settings, sv: Services, force: bool, st: State)
    requires force || AccessToken(st).None?
    ensures var conf := NewConfiguration(s.tenantId, s.clientId, None);
      var outcome := sv.deviceCode(|st.calls|)(conf);
      var t := LoginDeviceCodeStep(s, sv, force, st);
      conf.clientSecret.None?
      && t.state.calls == st.calls + [DeviceCodeGrant(conf)] && t.state.cache == st.cache
      && (t.result.Success? <==> outcome.Authorized?)
      && (outcome.Authorized? ==> t.state.store == Some(AzCredentials(s.tenantId, s.clientId, s.clientSecret, TokensOf(outcome.response))))
      && (!outcome.Authorized? ==> t.state.store == st.store && KindOf(t.result.error) == AuthenticationError(BadRequest))
  {
  }

  /** `reauth` always makes exactly one grant, of the kind the client's method selects. */
  lemma ReauthGrants(s: Settings, sv: Services, st: State)
    ensures var t := ReauthStep(s, sv, st);
      if s.clientSecret.Some? then t.state.calls == st.calls + [ClientCredentialsGrant(NewConfiguration(s.tenantId, s.clientId, s.clientSecret))]
      else t.state.calls == st.calls + [DeviceCodeGrant(NewConfiguration(s.tenantId, s.clientId, None))]
  {
  }

  /**
   * A refresh sends the saved refresh token for the client's identity and
   * saves the new pair; without a saved record or refresh token no grant is made.
   */
  lemma RefreshSendsSavedToken(s: Settings, sv: Services, st: State)
    ensures var t := ExchangeRefreshTokenStep(s, sv, st);
      (st.store.None? ==> t == Step(Failure(Errors.Auth(MissingToken, UNREADABLE_CREDENTIALS)), st))
      && (st.store.Some? && st.store.value.tokens.refreshToken.None? ==>
            t.state == st && KindOf(t.result.error) == AuthenticationError(BadRefresh))
      && (st.store.Some? && st.store.value.tokens.refreshToken.Some? ==>
            t.state.calls == st.calls + [RefreshGrant(s.tenantId, s.clientId, st.store.value.tokens.refreshToken.value)]
            && (t.result.Success? ==> t.state.store == Some(AzCredentials(s.tenantId, s.clientId, s.clientSecret, t.result.value))))
  {
  }

  /** Without an access token `request` fails with `MissingToken` before any call. */
  lemma RequestNeedsToken(s: Settings, sv: Services, items: seq<string>, matchRegex: bool, showExtensions: bool,
                          showTags: bool, skip: Option<U64>, top: Option<U16>, st: State)
    requires matchRegex ==> |items| > 0
    requires st.cache.Some? ==> NamedPages(sv)
    requires AccessToken(st).None?
    ensures RequestStep(s, sv, items, matchRegex, showExtensions, showTags, skip, top, st)
         == Step(Failure(Errors.Auth(MissingToken, NO_ACCESS_TOKEN)), st)
  {
  }

  /**
   * With a token, `request` sends exactly one body, which carries the
   * client's subscription filter, to the endpoint with that token, and its
   * outcome is the handling of the reply.
   */
  lemma RequestSendsOnce(s: Settings, sv: Services, items: seq<string>, matchRegex: bool, showExtensions: bool,
                         showTags: bool, skip: Option<U64>, top: Option<U16>, st: State)
    requires matchRegex ==> |items| > 0
    requires st.cache.Some? ==> NamedPages(sv)
    requires AccessToken(st).Some?
    ensures var args := Args(s, items, matchRegex, showExtensions, showTags, skip, top);
      var token := AccessToken(st).value;
      var reply := sv.resourceGraph(|st.calls|)(args, token);
      var t := RequestStep(s, sv, items, matchRegex, showExtensions, showTags, skip, top, st);
      args.subscriptions == s.subscriptions && (st.cache.Some? ==> Named(reply))
      && t == ReplyStep(sv, items, reply, Log(st, GraphRequest(args, token)))
      && |t.state.calls| > |st.calls| && t.state.calls[..|st.calls| + 1] == st.calls + [GraphRequest(args, token)]
      && t.state.store == st.store
  {
    var args := Args(s, items, matchRegex, showExtensions, showTags, skip, top);
    var token := AccessToken(st).value;
    var reply := sv.resourceGraph(|st.calls|)(args, token);
    assert st.cache.Some? ==> Named(reply);
    ReplyOutcomes(sv, items, reply, Log(st, GraphRequest(args, token)));
  }

  /**
   * Every reply other than a non-empty page is an error that leaves the
   * state as it was; a non-empty page is the result, and with a cache every
   * returned VM is then cached under its key. Nothing but the cache and the
   * log changes, and the log only grows.
   */
  lemma ReplyOutcomes(sv: Services, items: seq<string>, reply: GraphReply, st: State)
    requires st.cache.Some? ==> Named(reply)
    ensures var t := ReplyStep(sv, items, reply, st);
      t.state.store == st.store && |t.state.calls| >= |st.calls| && t.state.calls[..|st.calls|] == st.calls
      && (reply.SendFailed? ==> t == Step(Failure(Request(reply.sendStatus, SEND_FAILED)), st))
      && (reply.DecodeFailed? ==> t == Step(Failure(Request(reply.decodeStatus, DECODE_FAILED)), st))
      && (reply.VendorError? ==>
            t == Step(Failure(Errors.Auth(VendorKind(reply.code), reply.code + ": " + reply.message)), st))
      && (reply.Page? && |reply.response.data| == 0 ==>
            t.state == st && KindOf(t.result.error) == NoneFoundError)
      && (reply.Page? && |reply.response.data| > 0 && st.cache.None? ==> t == Step(Success(reply.response), st))
      && (reply.Page? && |reply.response.data| > 0 && st.cache.Some? && t.result.Success? ==>
            t.result.value == reply.response && t.state.cache.Some?
            && (forall i :: 0 <= i < |reply.response.data| ==> Key(reply.response.data[i]) in t.state.cache.value)
            && (forall i :: 0 <= i < |reply.response.data| && LastPut(reply.response.data, i) ==>
                  t.state.cache.value[Key(reply.response.data[i])] == reply.response.data[i]))
  {
    if reply.Page? && |reply.response.data| > 0 && st.cache.Some? {
      PutAllLog(sv, reply.response.data, st);
      PutAllStores(sv, reply.response.data, st);
    }
  }

  /** What the write-back loop leaves behind. */
  lemma {:induction false} PutAllLog(sv: Services, vms: seq<VirtualMachine>, st: State)
    requires st.cache.Some? && AllNamed(vms)
    decreases |vms|
    ensures var t := PutAllStep(sv, vms, st);
      t.state.store == st.store && t.state.cache.Some?
      && |st.calls| <= |t.state.calls| <= |st.calls| + |vms|
      && t.state.calls[..|st.calls|] == st.calls
      && (forall i :: |st.calls| <= i < |t.state.calls| ==>
            t.state.calls[i] == CachePut(Key(vms[i - |st.calls|]), vms[i - |st.calls|]))
      && (t.result.Success? ==> |t.state.calls| == |st.calls| + |vms|)
      && (t.result.Success? ==> forall i :: 0 <= i < |vms| ==> Key(vms[i]) in t.state.cache.value)
      && (forall k :: k in st.cache.value ==> k in t.state.cache.value)
      && (forall k :: k in t.state.cache.value && (forall i :: 0 <= i < |vms| ==> Key(vms[i]) != k) ==>
            k in st.cache.value && t.state.cache.value[k] == st.cache.value[k])
  {
    if |vms| > 0 {
      var key := Key(vms[0]);
      var st1 := Log(st, CachePut(key, vms[0]));
      if sv.cachePut(|st.calls|)(key, vms[0]).None? {
        var st2 := st1.(cache := Some(st.cache.value[key := vms[0]]));
        PutAllLog(sv, vms[1..], st2);
        var t := PutAllStep(sv, vms, st);
        assert t == PutAllStep(sv, vms[1..], st2);
        forall i | |st.calls| <= i < |t.state.calls|
          ensures t.state.calls[i] == CachePut(Key(vms[i - |st.calls|]), vms[i - |st.calls|])
        {
          if i == |st.calls| {
            assert t.state.calls[..|st2.calls|] == st2.calls;
            assert t.state.calls[i] == st2.calls[i];
          } else {
            assert vms[1..][i - |st2.calls|] == vms[i - |st.calls|];
          }
        }
        assert t.state.calls[..|st.calls|] == t.state.calls[..|st2.calls|][..|st.calls|];
        if t.result.Success? {
          forall i | 0 <= i < |vms|
            ensures Key(vms[i]) in t.state.cache.value
          {
            if i > 0 {
              assert vms[1..][i - 1] == vms[i];
            }
          }
        }
        forall k | k in t.state.cache.value && (forall i :: 0 <= i < |vms| ==> Key(vms[i]) != k)
          ensures k in st.cache.value && t.state.cache.value[k] == st.cache.value[k]
        {
          assert Key(vms[0]) != k;
          forall i | 0 <= i < |vms[1..]|
            ensures Key(vms[1..][i]) != k
          {
            assert vms[1..][i] == vms[i + 1];
          }
        }
      }
    }
  }

  /** No VM after the `i`-th has the same key, so its put is the last under that key. */
  predicate LastPut(vms: seq<VirtualMachine>, i: int)
    requires AllNamed(vms) && 0 <= i < |vms|
  {
    forall j :: i < j < |vms| ==> Key(vms[j]) != Key(vms[i])
  }

  /**
   * After a write-back that succeeds, each key holds the VM put last under
   * it, so a later hit on that name gives exactly that record.
   */
  lemma {:induction false} PutAllStores(sv: Services, vms: seq<VirtualMachine>, st: State)
    requires st.cache.Some? && AllNamed(vms)
    decreases |vms|
    ensures var t := PutAllStep(sv, vms, st);
      t.result.Success? ==>
      forall i :: 0 <= i < |vms| && LastPut(vms, i) ==>
        Key(vms[i]) in t.state.cache.value && t.state.cache.value[Key(vms[i])] == vms[i]
  {
    if |vms| > 0 {
      var key := Key(vms[0]);
      var st1 := Log(st, CachePut(key, vms[0]));
      if sv.cachePut(|st.calls|)(key, vms[0]).None? {
        var st2 := st1.(cache := Some(st.cache.value[key := vms[0]]));
        var rest := vms[1..];
        PutAllStores(sv, rest, st2);
        PutAllLog(sv, rest, st2);
        var t := PutAllStep(sv, vms, st);
        assert t == PutAllStep(sv, rest, st2);
        if t.result.Success? {
          forall i | 0 <= i < |vms| && LastPut(vms, i)
            ensures Key(vms[i]) in t.state.cache.value && t.state.cache.value[Key(vms[i])] == vms[i]
          {
            if i == 0 {
              forall j | 0 <= j < |rest|
                ensures Key(rest[j]) != key
              {
                assert rest[j] == vms[j + 1];
              }
            } else {
              assert rest[i - 1] == vms[i];
              forall j | i - 1 < j < |rest|
                ensures Key(rest[j]) != Key(rest[i - 1])
              {
                assert rest[j] == vms[j + 1];
              }
              assert LastPut(rest, i - 1);
            }
          }
        }
      }
    }
  }

  /** One more operand adds one lookup and lands on exactly one side of the split. */
  lemma SplitSnoc(items: seq<string>, i: nat, c: map<string, VirtualMachine>)
    requires i < |items|
    ensures var key := ToLower(items[i]);
      Hits(items[..i + 1], c) == Hits(items[..i], c) + (if key in c then [c[key]] else [])
      && Misses(items[..i + 1], c) == Misses(items[..i], c) + (if key in c then [] else [items[i]])
      && Lookups(items[..i + 1]) == Lookups(items[..i]) + [CacheGet(key)]
  {
    var p := items[..i + 1];
    assert p[..|p| - 1] == items[..i];
    assert p[|p| - 1] == items[i];
    LookupsSnoc(items, i);
  }

  lemma LookupsSnoc(items: seq<string>, i: nat)
    requires i < |items|
    ensures Lookups(items[..i + 1]) == Lookups(items[..i]) + [CacheGet(ToLower(items[i]))]
  {
    var l := Lookups(items[..i]) + [CacheGet(ToLower(items[i]))];
    assert |Lookups(items[..i + 1])| == |l|;
    forall k | 0 <= k < |l|
      ensures Lookups(items[..i + 1])[k] == l[k]
    {
      if k < i {
        assert items[..i + 1][k] == items[..i][k];
      }
    }
  }

  /** The split sends each operand to exactly one side, keeping the order, with one lookup each. */
  lemma {:induction false} SplitPartition(items: seq<string>, cache: map<string, VirtualMachine>)
    ensures |Hits(items, cache)| + |Misses(items, cache)| == |items|
    ensures forall q :: q in Misses(items, cache) <==> q in items && ToLower(q) !in cache
    ensures forall q :: q in items && ToLower(q) in cache ==> cache[ToLower(q)] in Hits(items, cache)
    ensures forall vm :: vm in Hits(items, cache) ==> exists q :: q in items && ToLower(q) in cache && cache[ToLower(q)] == vm
    ensures (forall q :: q in items ==> ToLower(q) !in cache) ==> Misses(items, cache) == items
    ensures (forall q :: q in items ==> ToLower(q) in cache) ==> Misses(items, cache) == []
  {
    MissesExactly(items, cache);
    HitsExactly(items, cache);
    if |items| > 0 {
      var init := items[..|items| - 1];
      SplitPartition(init, cache);
      if forall q :: q in items ==> ToLower(q) !in cache {
        assert items == init + [items[|items| - 1]];
      }
      if Misses(items, cache) != [] {
        assert Misses(items, cache)[0] in Misses(items, cache);
      }
    }
  }

  /** An operand is a miss exactly when its lower-cased name is not a cache key. */
  lemma {:induction false} MissesExactly(items: seq<string>, cache: map<string, VirtualMachine>)
    ensures forall q :: q in Misses(items, cache) <==> q in items && ToLower(q) !in cache
  {
    if |items| > 0 {
      var init := items[..|items| - 1];
      var q := items[|items| - 1];
      MissesExactly(init, cache);
      assert items == init + [q];
      forall p | p in items
        ensures p in init || p == q
      {
      }
    }
  }

  /** Every cached operand's record is a hit, and every hit is the record of a cached operand. */
  lemma {:induction false} HitsExactly(items: seq<string>, cache: map<string, VirtualMachine>)
    ensures forall q :: q in items && ToLower(q) in cache ==> cache[ToLower(q)] in Hits(items, cache)
    ensures forall vm :: vm in Hits(items, cache) ==> exists q :: q in items && ToLower(q) in cache && cache[ToLower(q)] == vm
  {
    if |items| > 0 {
      var init := items[..|items| - 1];
      var q := items[|items| - 1];
      HitsExactly(init, cache);
      assert items == init + [q];
      forall p | p in items && ToLower(p) in cache
        ensures cache[ToLower(p)] in Hits(items, cache)
      {
        if p in init {
          assert cache[ToLower(p)] in Hits(init, cache);
        }
      }
      forall vm | vm in Hits(items, cache)
        ensures exists p :: p in items && ToLower(p) in cache && cache[ToLower(p)] == vm
      {
        if vm in Hits(init, cache) {
          var p :| p in init && ToLower(p) in cache && cache[ToLower(p)] == vm;
          assert p in items;
        } else {
          assert q in items && ToLower(q) in cache && cache[ToLower(q)] == vm;
        }
      }
    }
  }

  /** With `nocache` or without a cache, every operand is queried and no lookup is made. */
  lemma NoCacheNoLookup(items: seq<string>, nocache: bool, st: State)
    requires nocache || st.cache.None?
    ensures SplitStep(items, nocache, st) == Split([], items, st)
  {
  }

  /** When every operand is cached, no request is made and the records are the answer. */
  lemma AllCachedAnswer(s: Settings, sv: Services, items: seq<string>, matchRegex: bool, showExtensions: bool,
                        showTags: bool, skip: Option<U64>, top: Option<U16>, st: State)
    requires st.cache.Some? && NamedPages(sv)
    requires forall q :: q in items ==> ToLower(q) in st.cache.value
    ensures var t := QueryVminfoStep(s, sv, items, matchRegex, showExtensions, showTags, false, skip, top, st);
      var hits := Hits(items, st.cache.value);
      t.state == st.(calls := st.calls + Lookups(items))
      && t.result == Success(CachedResponse(hits)) && |hits| == |items|
  {
    SplitPartition(items, st.cache.value);
  }

  /** A first request that succeeds gives its data followed by the cached records, with the remote total. */
  lemma FirstRequestSucceeds(s: Settings, sv: Services, items: seq<string>, matchRegex: bool, showExtensions: bool,
                             showTags: bool, nocache: bool, skip: Option<U64>, top: Option<U16>, st: State)
    requires st.cache.Some? ==> NamedPages(sv)
    ensures var split := SplitStep(items, nocache, st);
      |split.misses| > 0 ==>
      var first := RequestStep(s, sv, split.misses, matchRegex, showExtensions, showTags, skip, top, split.state);
      first.result.Success? ==>
      QueryVminfoStep(s, sv, items, matchRegex, showExtensions, showTags, nocache, skip, top, st)
        == Step(Success(Query.QueryResponse(first.result.value.totalResults, first.result.value.data + split.hits)), first.state)
  {
  }

  /**
   * A `MissingToken` error, or `TokenExpired` for the client-credentials
   * method, leads to one forced login and, if that succeeds, one retry of
   * the same request whose outcome is the answer as it is.
   */
  lemma ReauthThenRetry(s: Settings, sv: Services, items: seq<string>, matchRegex: bool, showExtensions: bool,
                        showTags: bool, nocache: bool, skip: Option<U64>, top: Option<U16>, st: State)
    requires st.cache.Some? ==> NamedPages(sv)
    ensures var split := SplitStep(items, nocache, st);
      |split.misses| > 0 ==>
      var first := RequestStep(s, sv, split.misses, matchRegex, showExtensions, showTags, skip, top, split.state);
      first.result.Failure? ==>
      (KindOf(first.result.error) == AuthenticationError(MissingToken)
       || (KindOf(first.result.error) == AuthenticationError(TokenExpired) && s.clientSecret.Some?)) ==>
      var re := ReauthStep(s, sv, first.state);
      QueryVminfoStep(s, sv, items, matchRegex, showExtensions, showTags, nocache, skip, top, st)
        == if re.result.Failure? then Step(Failure(re.result.error), re.state)
           else RequestStep(s, sv, split.misses, matchRegex, showExtensions, showTags, skip, top, re.state)
  {
  }

  /**
   * `TokenExpired` for the device-code method leads to one refresh and, if
   * that succeeds, one retry of the same request.
   */
  lemma RefreshThenRetry(s: Settings, sv: Services, items: seq<string>, matchRegex: bool, showExtensions: bool,
                         showTags: bool, nocache: bool, skip: Option<U64>, top: Option<U16>, st: State)
    requires st.cache.Some? ==> NamedPages(sv)
    requires s.clientSecret.None?
    ensures var split := SplitStep(items, nocache, st);
      |split.misses| > 0 ==>
      var first := RequestStep(s, sv, split.misses, matchRegex, showExtensions, showTags, skip, top, split.state);
      first.result.Failure? && KindOf(first.result.error) == AuthenticationError(TokenExpired) ==>
      var rf := ExchangeRefreshTokenStep(s, sv, first.state);
      QueryVminfoStep(s, sv, items, matchRegex, showExtensions, showTags, nocache, skip, top, st)
        == if rf.result.Failure? then Step(Failure(rf.result.error), rf.state)
           else RequestStep(s, sv, split.misses, matchRegex, showExtensions, showTags, skip, top, rf.state)
  {
  }

  /**
   * `NoneFoundError` with cached records gives those records; any other
   * error than the two recoverable ones is returned unchanged, with nothing
   * called after the first request.
   */
  lemma OtherOutcomes(s: Settings, sv: Services, items: seq<string>, matchRegex: bool, showExtensions: bool,
                      showTags: bool, nocache: bool, skip: Option<U64>, top: Option<U16>, st: State)
    requires st.cache.Some? ==> NamedPages(sv)
    ensures var split := SplitStep(items, nocache, st);
      |split.misses| > 0 ==>
      var first := RequestStep(s, sv, split.misses, matchRegex, showExtensions, showTags, skip, top, split.state);
      first.result.Failure? ==>
      var k := KindOf(first.result.error);
      var t := QueryVminfoStep(s, sv, items, matchRegex, showExtensions, showTags, nocache, skip, top, st);
      (k == NoneFoundError && |split.hits| > 0 ==> t == Step(Success(CachedResponse(split.hits)), first.state))
      && (k == NoneFoundError && |split.hits| == 0 ==> t == first)
      && (k != NoneFoundError && k != AuthenticationError(MissingToken) && k != AuthenticationError(TokenExpired) ==> t == first)
  {
  }

  // The retry bound.

  function GraphRequests(calls: seq<Call>): nat {
    if |calls| == 0 then 0
    else GraphRequests(calls[..|calls| - 1]) + (if calls[|calls| - 1].GraphRequest? then 1 else 0)
  }

  lemma {:induction false} GraphRequestsAppend(a: seq<Call>, b: seq<Call>)
    ensures GraphRequests(a + b) == GraphRequests(a) + GraphRequests(b)
    decreases |b|
  {
    if |b| > 0 {
      assert (a + b)[..|a + b| - 1] == a + b[..|b| - 1];
      GraphRequestsAppend(a, b[..|b| - 1]);
    } else {
      assert a + b == a;
    }
  }

  lemma {:induction false} LookupsNoRequest(items: seq<string>)
    ensures GraphRequests(Lookups(items)) == 0
    decreases |items|
  {
    if |items| > 0 {
      assert Lookups(items)[..|items| - 1] == Lookups(items[..|items| - 1]);
      LookupsNoRequest(items[..|items| - 1]);
    }
  }

  lemma {:induction false} PutAllNoRequest(sv: Services, vms: seq<VirtualMachine>, st: State)
    requires st.cache.Some? && AllNamed(vms)
    decreases |vms|
    ensures GraphRequests(PutAllStep(sv, vms, st).state.calls) == GraphRequests(st.calls)
  {
    if |vms| > 0 {
      var key := Key(vms[0]);
      var st1 := Log(st, CachePut(key, vms[0]));
      GraphRequestsAppend(st.calls, [CachePut(key, vms[0])]);
      assert GraphRequests([CachePut(key, vms[0])]) == 0 by {
        assert [CachePut(key, vms[0])][..0] == [];
      }
      if sv.cachePut(|st.calls|)(key, vms[0]).None? {
        PutAllNoRequest(sv, vms[1..], st1.(cache := Some(st.cache.value[key := vms[0]])));
      }
    }
  }

  lemma OneCallNoRequest(calls: seq<Call>, c: Call)
    requires !c.GraphRequest?
    ensures GraphRequests(calls + [c]) == GraphRequests(calls)
  {
    GraphRequestsAppend(calls, [c]);
    assert [c][..0] == [];
  }

  lemma RecoveryNoRequest(s: Settings, sv: Services, st: State)
    ensures GraphRequests(ReauthStep(s, sv, st).state.calls) == GraphRequests(st.calls)
    ensures GraphRequests(ExchangeRefreshTokenStep(s, sv, st).state.calls) == GraphRequests(st.calls)
  {
    OneCallNoRequest(st.calls, ClientCredentialsGrant(NewConfiguration(s.tenantId, s.clientId, s.clientSecret)));
    OneCallNoRequest(st.calls, DeviceCodeGrant(NewConfiguration(s.tenantId, s.clientId, None)));
    if st.store.Some? && st.store.value.tokens.refreshToken.Some? {
      OneCallNoRequest(st.calls, RefreshGrant(s.tenantId, s.clientId, st.store.value.tokens.refreshToken.value));
    }
  }

  /** Handling the reply sends nothing more. */
  lemma ReplyNoRequest(sv: Services, items: seq<string>, reply: GraphReply, st: State)
    requires st.cache.Some? ==> Named(reply)
    ensures GraphRequests(ReplyStep(sv, items, reply, st).state.calls) == GraphRequests(st.calls)
  {
    if reply.Page? && |reply.response.data| > 0 && st.cache.Some? {
      PutAllNoRequest(sv, reply.response.data, st);
    }
  }

  lemma RequestAtMostOne(s: Settings, sv: Services, items: seq<string>, matchRegex: bool, showExtensions: bool,
                         showTags: bool, skip: Option<U64>, top: Option<U16>, st: State)
    requires matchRegex ==> |items| > 0
    requires st.cache.Some? ==> NamedPages(sv)
    ensures GraphRequests(RequestStep(s, sv, items, matchRegex, showExtensions, showTags, skip, top, st).state.calls)
         <= GraphRequests(st.calls) + 1
  {
    if AccessToken(st).Some? {
      var args := Args(s, items, matchRegex, showExtensions, showTags, skip, top);
      var token := AccessToken(st).value;
      GraphRequestsAppend(st.calls, [GraphRequest(args, token)]);
      assert [GraphRequest(args, token)][..0] == [];
      var reply := sv.resourceGraph(|st.calls|)(args, token);
      assert st.cache.Some? ==> Named(reply);
      ReplyNoRequest(sv, items, reply, Log(st, GraphRequest(args, token)));
    }
  }

  /** A retry sends at most one request. */
  lemma RetryAtMostOne(s: Settings, sv: Services, recovery: Step<()>, misses: seq<string>, matchRegex: bool,
                       showExtensions: bool, showTags: bool, skip: Option<U64>, top: Option<U16>)
    requires matchRegex ==> |misses| > 0
    requires recovery.state.cache.Some? ==> NamedPages(sv)
    ensures GraphRequests(RetryStep(s, sv, recovery, misses, matchRegex, showExtensions, showTags, skip, top).state.calls)
         <= GraphRequests(recovery.state.calls) + 1
  {
    if recovery.result.Success? {
      RequestAtMostOne(s, sv, misses, matchRegex, showExtensions, showTags, skip, top, recovery.state);
    }
  }

  /** After the first request, at most one more is sent. */
  lemma AfterFirstAtMostOne(s: Settings, sv: Services, first: Step<QueryResponse>, hits: seq<VirtualMachine>,
                            misses: seq<string>, matchRegex: bool, showExtensions: bool, showTags: bool,
                            skip: Option<U64>, top: Option<U16>)
    requires matchRegex ==> |misses| > 0
    requires first.state.cache.Some? ==> NamedPages(sv)
    ensures GraphRequests(AfterFirstRequest(s, sv, first, hits, misses, matchRegex, showExtensions, showTags, skip, top).state.calls)
         <= GraphRequests(first.state.calls) + 1
  {
    if first.result.Failure? {
      RecoveryNoRequest(s, sv, first.state);
      var re := ReauthStep(s, sv, first.state);
      var rf := Refreshed(ExchangeRefreshTokenStep(s, sv, first.state));
      match KindOf(first.result.error)
      case AuthenticationError(MissingToken) =>
        RetryAtMostOne(s, sv, re, misses, matchRegex, showExtensions, showTags, skip, top);
      case AuthenticationError(TokenExpired) =>
        RetryAtMostOne(s, sv, re, misses, matchRegex, showExtensions, showTags, skip, top);
        RetryAtMostOne(s, sv, rf, misses, matchRegex, showExtensions, showTags, skip, top);
      case _ =>
    }
  }

  /** `query_vminfo` sends at most two requests: the first and at most one retry. */
  lemma AtMostTwoRequests(s: Settings, sv: Services, items: seq<string>, matchRegex: bool, showExtensions: bool,
                          showTags: bool, nocache: bool, skip: Option<U64>, top: Option<U16>, st: State)
    requires st.cache.Some? ==> NamedPages(sv)
    ensures GraphRequests(QueryVminfoStep(s, sv, items, matchRegex, showExtensions, showTags, nocache, skip, top, st).state.calls)
         <= GraphRequests(st.calls) + 2
  {
    var split := SplitStep(items, nocache, st);
    if !nocache && st.cache.Some? {
      GraphRequestsAppend(st.calls, Lookups(items));
      LookupsNoRequest(items);
    }
    if |split.misses| > 0 {
      var first := RequestStep(s, sv, split.misses, matchRegex, showExtensions, showTags, skip, top, split.state);
      RequestAtMostOne(s, sv, split.misses, matchRegex, showExtensions, showTags, skip, top, split.state);
      AfterFirstAtMostOne(s, sv, first, split.hits, split.misses, matchRegex, showExtensions, showTags, skip, top);
    }
  }

  /** The rendering of a client shows neither its secret nor its tokens. */
  lemma DisplayRedacts(s1: Settings, st1: State, s2: Settings, st2: State)
    requires s1.tenantId == s2.tenantId && s1.clientId == s2.clientId
    ensures DisplayClient(s1, st1) == DisplayClient(s2, st2)
  {
  }

  // ---------------------------------------------------------------------
  // The client
  // ---------------------------------------------------------------------

  /** `Client`: a fixed identity over a credential store and an optional cache. */
  class Client {
    const tenantId: string
    const clientId: string
    const clientSecret: Option<string>
    const subscriptions: Option<seq<string>>
    var store: Option<AzCredentials>
    var cache: Option<map<string, VirtualMachine>>
    var calls: seq<Call>

    function Settings(): Settings {
      Identity(tenantId, clientId, clientSecret, subscriptions)
    }

    function State(): State
      reads this
    {
      Snapshot(store, cache, calls)
    }

    /** A client over an existing store and cache, before any call. */
    constructor (s: Settings, store: Option<AzCredentials>, cache: Option<map<string, VirtualMachine>>)
      ensures Settings() == s && State() == Snapshot(store, cache, [])
    {
      tenantId := s.tenantId;
      clientId := s.clientId;
      clientSecret := s.clientSecret;
      subscriptions := s.subscriptions;
      this.store := store;
      this.cache := cache;
      calls := [];
    }

    function AuthMethod(): (m: Method)
      ensures m == MethodOf(Settings())
    {
      MethodOf(Settings())
    }

    method SaveCredentials(tokens: AuthTokens)
      modifies this
      ensures State() == Saved(Settings(), tokens, old(State()))
    {
      store := Some(AzCredentials(tenantId, clientId, clientSecret, tokens));
    }

    method LoginClientCredentials(sv: Services, force: bool) returns (r: Result<(), Error>)
      modifies this
      ensures Step(r, State()) == LoginClientCredentialsStep(Settings(), sv, force, old(State()))
    {
      if !force && AccessToken(State()).Some? {
        return Success(());
      }
      var conf := NewConfiguration(tenantId, clientId, clientSecret);
      var exchange := sv.clientCredentials(|calls|);
      calls := calls + [ClientCredentialsGrant(conf)];
      var tokens := LoginNonInteractive(conf, exchange);
      if tokens.Failure? {
        return Failure(tokens.error);
      }
      SaveCredentials(tokens.value);
      r := Success(());
    }

    method LoginDeviceCode(sv: Services, force: bool) returns (r: Result<(), Error>)
      modifies this
      ensures Step(r, State()) == LoginDeviceCodeStep(Settings(), sv, force, old(State()))
    {
      if !force && AccessToken(State()).Some? {
        return Success(());
      }
      var conf := NewConfiguration(tenantId, clientId, None);
      var flow := sv.deviceCode(|calls|);
      calls := calls + [DeviceCodeGrant(conf)];
      var tokens := LoginInteractive(conf, flow);
      if tokens.Failure? {
        return Failure(tokens.error);
      }
      SaveCredentials(tokens.value);
      r := Success(());
    }

    method Reauth(sv: Services) returns (r: Result<(), Error>)
      modifies this
      ensures Step(r, State()) == ReauthStep(Settings(), sv, old(State()))
    {
      match AuthMethod()
      case ClientCredentials =>
        r := LoginClientCredentials(sv, true);
      case DeviceCode =>
        r := LoginDeviceCode(sv, true);
    }

    method ExchangeRefreshToken(sv: Services) returns (r: Result<AuthTokens, Error>)
      modifies this
      ensures Step(r, State()) == ExchangeRefreshTokenStep(Settings(), sv, old(State()))
    {
      var saved := LoadCredentials(State());
      if saved.Failure? {
        return Failure(saved.error);
      }
      var rt := saved.value.tokens.refreshToken;
      var exchange := sv.refresh(|calls|);
      if rt.Some? {
        calls := calls + [RefreshGrant(tenantId, clientId, rt.value)];
      }
      var tokens := ExchangeRefreshTokens(tenantId, clientId, rt, exchange);
      if tokens.Failure? {
        return Failure(tokens.error);
      }
      SaveCredentials(tokens.value);
      r := tokens;
    }

    /** The write-back loop of `request`. */
    method PutAll(sv: Services, vms: seq<VirtualMachine>) returns (r: Result<(), Error>)
      requires cache.Some? && AllNamed(vms)
      modifies this
      ensures Step(r, State()) == PutAllStep(sv, vms, old(State()))
    {
      var i := 0;
      while i < |vms|
        invariant 0 <= i <= |vms| && cache.Some?
        invariant PutAllStep(sv, vms, old(State())) == PutAllStep(sv, vms[i..], State())
      {
        var vm := vms[i];
        var key := ToLower(vm.vmName.value);
        var fault := sv.cachePut(|calls|)(key, vm);
        assert vms[i..][1..] == vms[i + 1..];
        calls := calls + [CachePut(key, vm)];
        if fault.Some? {
          return Failure(fault.value);
        }
        cache := Some(cache.value[key := vm]);
        i := i + 1;
      }
      r := Success(());
    }

    method Request(sv: Services, items: seq<string>, matchRegex: bool, showExtensions: bool, showTags: bool,
                   skip: Option<U64>, top: Option<U16>) returns (r: Result<QueryResponse, Error>)
      requires matchRegex ==> |items| > 0
      requires cache.Some? ==> NamedPages(sv)
      modifies this
      ensures Step(r, State()) == RequestStep(Settings(), sv, items, matchRegex, showExtensions, showTags, skip, top, old(State()))
    {
      var args := RequestArgs(items, matchRegex, showExtensions, showTags, skip, top, subscriptions);
      var token := AccessToken(State());
      if token.None? {
        return Failure(Errors.Auth(MissingToken, NO_ACCESS_TOKEN));
      }
      var reply := sv.resourceGraph(|calls|)(args, token.value);
      assert cache.Some? ==> Named(reply);
      calls := calls + [GraphRequest(args, token.value)];
      r := HandleReply(sv, items, reply);
    }

    /** The reply handling of `request`. */
    method HandleReply(sv: Services, items: seq<string>, reply: GraphReply) returns (r: Result<QueryResponse, Error>)
      requires cache.Some? ==> Named(reply)
      modifies this
      ensures Step(r, State()) == ReplyStep(sv, items, reply, old(State()))
    {
      match reply
      case SendFailed(status) =>
        return Failure(Errors.Request(status, SEND_FAILED));
      case DecodeFailed(status) =>
        return Failure(Errors.Request(status, DECODE_FAILED));
      case VendorError(code, message) =>
        return Failure(Errors.Auth(VendorKind(code), code + ": " + message));
      case Page(page) =>
        if |page.data| == 0 {
          return Failure(NoneFound(NONE_FOUND_PREFIX + DebugList(items)));
        }
        if cache.Some? {
          var put := PutAll(sv, page.data);
          if put.Failure? {
            return Failure(put.error);
          }
        }
        r := Success(page);
    }

    /** The operand split of `query_vminfo`: one lookup per operand, in order. */
    method SplitOperands(items: seq<string>, nocache: bool) returns (hits: seq<VirtualMachine>, misses: seq<string>)
      modifies this
      ensures Split(hits, misses, State()) == SplitStep(items, nocache, old(State()))
    {
      misses := items;
      hits := [];
      if !nocache && cache.Some? {
        var c := cache.value;
        var log := calls;
        misses := [];
        var i := 0;
        while i < |items|
          invariant 0 <= i <= |items|
          invariant hits == Hits(items[..i], c) && misses == Misses(items[..i], c)
          invariant log == calls + Lookups(items[..i])
          modifies {}
        {
          var q := items[i];
          var key := ToLower(q);
          SplitSnoc(items, i, c);
          ConcatAssoc(calls, Lookups(items[..i]), [CacheGet(key)]);
          log := log + [CacheGet(key)];
          if key in c {
            hits := hits + [c[key]];
          } else {
            misses := misses + [q];
          }
          i := i + 1;
        }
        assert items[..i] == items;
        calls := log;
      }
    }

    method QueryVminfo(sv: Services, items: seq<string>, matchRegex: bool, showExtensions: bool, showTags: bool,
                       nocache: bool, skip: Option<U64>, top: Option<U16>) returns (r: Result<QueryResponse, Error>)
      requires cache.Some? ==> NamedPages(sv)
      modifies this
      ensures Step(r, State()) == QueryVminfoStep(Settings(), sv, items, matchRegex, showExtensions, showTags, nocache, skip, top, old(State()))
    {
      var cachedResults, queryOps := SplitOperands(items, nocache);
      if |queryOps| == 0 {
        return Success(Query.QueryResponse(AsU64(|cachedResults|), cachedResults));
      }
      var resp := Request(sv, queryOps, matchRegex, showExtensions, showTags, skip, top);
      r := AfterFirst(sv, resp, cachedResults, queryOps, matchRegex, showExtensions, showTags, skip, top);
    }

    /** What `query_vminfo` does once the first request has returned `first`. */
    method AfterFirst(sv: Services, first: Result<QueryResponse, Error>, cachedResults: seq<VirtualMachine>,
                      queryOps: seq<string>, matchRegex: bool, showExtensions: bool, showTags: bool,
                      skip: Option<U64>, top: Option<U16>) returns (r: Result<QueryResponse, Error>)
      requires matchRegex ==> |queryOps| > 0
      requires cache.Some? ==> NamedPages(sv)
      modifies this
      ensures Step(r, State()) == AfterFirstRequest(Settings(), sv, Step(first, old(State())), cachedResults, queryOps,
                                                    matchRegex, showExtensions, showTags, skip, top)
    {
      if first.Success? {
        var page := first.value;
        return Success(page.(data := page.data + cachedResults));
      }
      var err := first.error;
      var recovered := Recover(sv, KindOf(err));
      if recovered.Some? {
        r := Retry(sv, recovered.value, queryOps, matchRegex, showExtensions, showTags, skip, top);
      } else if KindOf(err) == NoneFoundError && |cachedResults| > 0 {
        r := Success(Query.QueryResponse(AsU64(|cachedResults|), cachedResults));
      } else {
        r := Failure(err);
      }
    }

    /** The recovery step of `query_vminfo` for an error of kind `k`, if it has one. */
    method Recover(sv: Services, k: Kind) returns (recovered: Option<Result<(), Error>>)
      modifies this
      ensures RecoveryStep(Settings(), sv, k, old(State()))
           == if recovered.Some? then Some(Step(recovered.value, State())) else None
      ensures recovered.None? ==> State() == old(State())
    {
      match k
      case AuthenticationError(MissingToken) =>
        var re := Reauth(sv);
        recovered := Some(re);
      case AuthenticationError(TokenExpired) =>
        if AuthMethod() == ClientCredentials {
          var re := Reauth(sv);
          recovered := Some(re);
        } else {
          var rf := ExchangeRefreshToken(sv);
          recovered := Some(if rf.Success? then Success(()) else Failure(rf.error));
        }
      case _ =>
        recovered := None;
    }

    /** The single retry after a recovery step that returned `recovered`. */
    method Retry(sv: Services, recovered: Result<(), Error>, queryOps: seq<string>, matchRegex: bool,
                 showExtensions: bool, showTags: bool, skip: Option<U64>, top: Option<U16>)
      returns (r: Result<QueryResponse, Error>)
      requires matchRegex ==> |queryOps| > 0
      requires cache.Some? ==> NamedPages(sv)
      modifies this
      ensures Step(r, State()) == RetryStep(Settings(), sv, Step(recovered, old(State())), queryOps, matchRegex,
                                            showExtensions, showTags, skip, top)
    {
      if recovered.Failure? {
        return Failure(recovered.error);
      }
      r := Request(sv, queryOps, matchRegex, showExtensions, showTags, skip, top);
    }

    /** `Display for Client`: the same text whatever the secret, filter, tokens, cache and log. */
    function Display(): (d: string)
      reads this
      ensures d == DisplayClient(Identity(tenantId, clientId, None, None), Snapshot(None, None, []))
    {
      DisplayClient(Settings(), State())
    }
  }
}
