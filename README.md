# azure-vminfo in Dafny

This project models the decision logic of `azure-vminfo`, a tool that looks
up Azure virtual machines through the Azure Resource Graph API and proves
properties of that logic. The model covers:

- **The `lib_vminfo` client** (`Vminfo`). It holds an identity, a credential store and an optional
  result cache. It logs in with the OAuth 2.0 client-credentials grant
  (section 4.4 of RFC 6749) or the device authorization grant (RFC 8628).
  It refreshes tokens (section 6 of RFC 6749), sends one Resource Graph
  request at a time and writes the results back to the cache.
  `query_vminfo` splits the operands into cache hits and misses. It
  recovers once from a missing or expired token and falls back to cached
  records when nothing is found.
- **The error taxonomy** (`Errors`). Error kinds, their HTTP status, the
  constructors and the rendering.
- **Token handling** (`Auth`). Azure's token response keeps `expires_in` as
  a decimal string. The model covers its setters, getters and the
  conversion from the standard response, and the error decisions of the
  three token exchanges.
- **The two query-body builders**. `Query` is the current
  `QueryRequest::make`. `LegacyQuery` is the older one, which keeps the
  first name's case.
- **The superseded expiry-gated REST client** (`LegacyClient`).
- **The command line's pagination loop** (`Pagination`).
- **Credential redaction** (`Credentials`).

External services are parameters:

- The token grants, the Resource Graph endpoint, the cache's write path, the
  service-principal login and the REST transport are functions.
- The `lib_vminfo` services and the pagination remote are given the number of
  calls made before them, so their answers may change over time.
- The Resource Graph endpoint and the REST transport are given a request's
  arguments: the operands, the switches, the paging and the subscription
  filter. The JSON body built from them is `Vminfo.Body` and
  `LegacyClient.Body`, which call the two builders.
- The clock of the REST client is an integer `now`.
- The credential store is an `Option` of the saved record.
- The cache is a map from lower-cased VM names to records. A name that is not
  a key is a miss.
- The client keeps a log of its external calls. Properties such as "no
  exchange happens" or "at most one retry" are stated on that log.

The state-changing code takes the source's form:

- `Vminfo.Client` has the client's fields, and its methods update them.
- `Auth.AzureTokenResponse` has setters on fields.
- The builders, the write-back loop, the operand split and the pagination
  loop are methods with loops.

Each of these methods is proved equal to a specification function, and the
lemmas are stated about those functions.

Nothing here was executed; every statement below is a verified proof obligation.

## Model

| member | source | states |
|---|---|---|
| Errors.StatusOf | lib_vminfo/src/error.rs:44-54 | `AccessDenied` is exactly the kind mapped to 403, `BadRequest` exactly the one mapped to 400, and the other four map to 401 |
| Errors.DescriptionsDistinct | lib_vminfo/src/error.rs:57-68 | two kinds with the same description are the same kind |
| Errors.NewError | lib_vminfo/src/error.rs:129-147 | the built error reports the kind and message it was given |
| Errors.Auth | lib_vminfo/src/error.rs:192-194 | `auth` builds an `AuthenticationError` of the given kind with the given message |
| Errors.ClientConfig | lib_vminfo/src/error.rs:199-201 | `client_config` builds a `ClientCreateError` |
| Errors.NoneFound | lib_vminfo/src/error.rs:206-208 | `none_found` builds a `NoneFoundError` |
| Errors.Request | lib_vminfo/src/error.rs:212-218 | `request` builds a `RequestError` carrying the given status |
| Errors.OtherError | lib_vminfo/src/error.rs:223-225 | `other` builds an `Other` error |
| Errors.DisplayEndsWithMessage | lib_vminfo/src/error.rs:157-181 | the message is the suffix of the rendering |
| Errors.DisplayRequestWithoutStatus | lib_vminfo/src/error.rs:165-175 | a request error without status renders `HTTP request error. NO_STATUS: m` |
| Errors.DisplayAuthentication | lib_vminfo/src/error.rs:161-163 | an authentication error renders its kind's description in parentheses |
| Errors.DisplayRequestWithStatus | lib_vminfo/src/error.rs:165-175 | a 403 request error renders `HTTP request error. 403 Forbidden: m` |
| Auth.DefaultAuthTokens | lib_vminfo/src/lib.rs:136-143 | the default pair is access token `XXX` and no refresh token |
| Auth.MethodName | lib_vminfo/src/auth.rs:215-222 | each method renders as its own name, and no other method does |
| Auth.DefaultConfiguration | lib_vminfo/src/auth.rs:270-280 | the default configuration is `XXX` identity and secret, with the management scope only |
| Auth.NewConfiguration | lib_vminfo/src/auth.rs:260-267 | `Configuration::new` copies tenant, client and secret verbatim and sets the single default scope |
| Auth.WholeSeconds | lib_vminfo/src/auth.rs:137-143 | truncation keeps the seconds and drops the nanoseconds |
| Auth.SecondsText | lib_vminfo/src/auth.rs:84-86 | an expiry is stored as text exactly when there is one |
| Auth.ParsedExpiry | lib_vminfo/src/auth.rs:137-143 | reading a stored expiry gives a duration exactly when text is stored |
| Auth.ExpiryRoundTrip | lib_vminfo/src/auth.rs:84-143 | storing an expiry and reading it back gives it truncated to whole seconds; the stored text always parses |
| Auth.AzureTokenResponse.New | lib_vminfo/src/auth.rs:56-65 | `new` stores the access token, token type and extra fields and leaves expiry, refresh token and scopes empty |
| Auth.AzureTokenResponse.From | lib_vminfo/src/auth.rs:166-181 | the conversion preserves access token, type, refresh token, scopes and extra fields, and keeps the expiry as whole seconds |
| Auth.AzureTokenResponse.SetAccessToken | lib_vminfo/src/auth.rs:70-72 | sets the access token and changes no other field |
| Auth.AzureTokenResponse.SetTokenType | lib_vminfo/src/auth.rs:77-79 | sets the token type and changes no other field |
| Auth.AzureTokenResponse.SetExpiresIn | lib_vminfo/src/auth.rs:84-86 | afterwards `expires_in()` is the given duration truncated to seconds, or none; no other field changes |
| Auth.AzureTokenResponse.SetRefreshToken | lib_vminfo/src/auth.rs:91-93 | sets the refresh token and changes no other field |
| Auth.AzureTokenResponse.SetScopes | lib_vminfo/src/auth.rs:98-100 | sets the scopes and changes no other field |
| Auth.AzureTokenResponse.SetExtraFields | lib_vminfo/src/auth.rs:112-114 | sets the extra fields and changes no other field |
| Auth.AzureTokenResponse.ExpiresIn | lib_vminfo/src/auth.rs:137-143 | gives a duration exactly when one is stored, with no nanoseconds and the stored seconds |
| Auth.TokensOf | lib_vminfo/src/auth.rs:328-334 | a successful exchange yields the response's access and refresh tokens |
| Auth.LoginNonInteractive | lib_vminfo/src/auth.rs:286-337 | succeeds exactly when the grant returns a response, with its tokens; a rejected grant is `BadCredentials` with its message |
| Auth.LoginInteractive | lib_vminfo/src/auth.rs:340-420 | succeeds exactly when the device flow is authorized, with its tokens; every failure of the flow is `BadRequest` |
| Auth.RefreshTokens | lib_vminfo/src/auth.rs:425-486 | no refresh token, or a rejected exchange, is `BadRefresh`; an answer without a new refresh token is `MissingToken`; otherwise the new pair, which always holds a refresh token |
| Auth.ExchangeRefreshTokens | lib_vminfo/src/auth.rs:449-484 | the method with the mutable placeholder response returns exactly `RefreshTokens` |
| Query.DefaultOptions | lib_vminfo/src/query.rs:127-135 | default options are skip 0, no skip token, top 1000 |
| Query.DefaultResponse | lib_vminfo/src/query.rs:175-182 | the default response has total 0 and no data |
| Query.Operator | lib_vminfo/src/query.rs:51-66 | the operator is `matches regex` exactly in regex mode and `in` exactly otherwise |
| Query.ExtensionsFragment | lib_vminfo/src/query.rs:84-86 | the extensions join is inserted exactly when asked for, else nothing |
| Query.TagsFragment | lib_vminfo/src/query.rs:89-91 | the tags projection is inserted exactly when asked for, else nothing |
| Query.QuotedAll | lib_vminfo/src/query.rs:70-79 | each name is quoted in place |
| Query.HostList | lib_vminfo/src/query.rs:67-80 | the host list is parenthesised |
| Query.Build | lib_vminfo/src/query.rs:41-101 | skip and top default to 0 and 1000 and otherwise pass through; no skip token; subscriptions copied unchanged |
| Query.RenderOperand | lib_vminfo/src/query.rs:57-80 | the loop that grows the operand string yields the mode's operator and the lower-cased quoted list or regex operand |
| Query.ListSnoc | lib_vminfo/src/query.rs:77-79 | one step of the list loop appends the next quoted name, after `, `, to the joined list |
| Query.Make | lib_vminfo/src/query.rs:41-101 | the imperative `make` returns exactly `Build` |
| Query.TemplateParts | lib_vminfo/src/query.rs:94 | in the template the operator follows the head, and the operand clause and both fragments occur in the query |
| Query.OperatorAfterHead | lib_vminfo/src/query.rs:50-94 | in the template filled with any operator and fragments, the operator and a space stand right after the head |
| Query.OperatorFollowsHead | lib_vminfo/src/query.rs:50-94 | right after the template head stands `matches regex` in regex mode and `in` in literal mode, so literal mode never uses the regex operator |
| Query.LiteralHostList | lib_vminfo/src/query.rs:58-80 | in literal mode the query contains `in (` + the lower-cased quoted names joined by `", "` + `)` |
| Query.RegexOperand | lib_vminfo/src/query.rs:64-66 | in regex mode the query contains `matches regex '` + the first name lower-cased + `'` |
| Query.TagsInserted | lib_vminfo/src/query.rs:89-91 | with tags the query contains `, tags=tags` |
| Query.ExtensionsInserted | lib_vminfo/src/query.rs:84-86 | with extensions the query contains the extensions join |
| Query.FragmentsOmitted | lib_vminfo/src/query.rs:84-94 | without tags or extensions both placeholders are empty |
| Query.CaseInsensitive | lib_vminfo/src/query.rs:57-61 | the request is the same for names and their lower-cased forms |
| Query.EmptyHostList | lib_vminfo/src/query.rs:70-76 | an empty name list renders as `in ('')` |
| Query.EmptyClause | lib_vminfo/src/query.rs:70-76 | the literal clause of no names is `in ('')` |
| QueryRequestTests.SingleClause | lib_vminfo/src/query.rs:213-223 | the clause for `linux-01` is `in ('linux-01')` |
| QueryRequestTests.SingleHostnameQuery | lib_vminfo/src/query.rs:213-223 | test `single_hostname_query`: defaults and `in ('linux-01')`, for any extension and tag flags |
| QueryRequestTests.ManyHostnamesQuery | lib_vminfo/src/query.rs:226-243 | test `many_hostnames_query`: defaults and the four-name clause, for any extension and tag flags (so also tests `query_extensions` and `query_tags` at 258-299, whose fragments `ExtensionsInserted` and `TagsInserted` add) |
| QueryRequestTests.RegularExpressionMatching | lib_vminfo/src/query.rs:246-255 | test `regular_expression_matching`: defaults and `matches regex` present |
| QueryRequestTests.QueryWithCustomPageSize | lib_vminfo/src/query.rs:302-310 | test `query_with_custom_page_size`: skip 0, top 150 |
| QueryRequestTests.QueryAPage | lib_vminfo/src/query.rs:313-321 | test `query_a_page`: skip 3000, top 1000 |
| LegacyQuery.Operands | lib_vminfo/src/models/query.rs:46-58 | the first name is kept as given and every later name is lower-cased |
| LegacyQuery.Build | lib_vminfo/src/models/query.rs:27-74 | skip and top default to 0 and 1000 and otherwise pass through; subscriptions copied unchanged |
| LegacyQuery.RenderOperand | lib_vminfo/src/models/query.rs:41-59 | yields the mode's operator and the older operand text: the first name verbatim in regex mode, else the host list |
| LegacyQuery.RenderList | lib_vminfo/src/models/query.rs:46-58 | the literal-mode loop yields the parenthesised quoted list with the first name as given and later names lower-cased, `('')` for no names |
| LegacyQuery.Make | lib_vminfo/src/models/query.rs:27-74 | the imperative older `make` returns exactly the older `Build` |
| LegacyQuery.LiteralHostList | lib_vminfo/src/models/query.rs:46-58 | in literal mode the query contains `in ` + the list, first name as given, later names lower-cased |
| LegacyQuery.RegexOperand | lib_vminfo/src/models/query.rs:42-44 | in regex mode the query contains `matches regex '` + the first name verbatim + `'` |
| LegacyQuery.ExtensionsInserted | lib_vminfo/src/models/query.rs:62-64 | with extensions the query contains the extensions join |
| LegacyQuery.AgreesWithNewer | lib_vminfo/src/models/query.rs:27-74 | on lower-case names the older request is the newer one without tags (the older builder has no tags option) |
| LegacyQuery.FirstNameKeepsCase | lib_vminfo/src/models/query.rs:46-58 | `["Linux-01", "Linux-02"]` renders `in ('Linux-01', 'linux-02')` |
| LegacyQueryRequestTests.SingleHostnameQuery | lib_vminfo/src/models/query.rs:127-137 | test `single_hostname_query`, for either extension flag |
| LegacyQueryRequestTests.ManyHostnamesQuery | lib_vminfo/src/models/query.rs:140-157 | test `many_hostnames_query`, for either extension flag |
| LegacyQueryRequestTests.RegularExpressionMatching | lib_vminfo/src/models/query.rs:160-169 | test `regular_expression_matching`, for either extension flag |
| LegacyQueryRequestTests.QueryExtensions | lib_vminfo/src/models/query.rs:172-191 | test `query_extensions`: the extensions join is present |
| LegacyQueryRequestTests.QueryWithCustomPageSize | lib_vminfo/src/models/query.rs:194-202 | test `query_with_custom_page_size` |
| LegacyQueryRequestTests.QueryAPage | lib_vminfo/src/models/query.rs:205-213 | test `query_a_page` |
| Vminfo.AccessToken | lib_vminfo/src/lib.rs:243-245 | there is an access token exactly when a record is saved, and it is the saved one |
| Vminfo.LoadCredentials | lib_vminfo/src/lib.rs:590-594 | the saved record, or `MissingToken` "could not read credentials from file." when nothing is saved (persistance.rs:146-153) |
| Vminfo.Saved | lib_vminfo/src/lib.rs:335-357 | the saved record is the client's tenant, client and secret with exactly the given tokens; cache and log unchanged |
| Vminfo.MethodOf | lib_vminfo/src/lib.rs:320-325 | `ClientCredentials` exactly when a secret is set, `DeviceCode` exactly when not |
| Vminfo.VendorKind | lib_vminfo/src/lib.rs:565-578 | `ExpiredAuthenticationToken`, `InvalidAuthenticationToken` and `AccessDenied` map to `TokenExpired`, `BadCredentials` and `AccessDenied` in both directions; anything else is `BadRequest` |
| Vminfo.Misses | lib_vminfo/src/lib.rs:384-402 | never more misses than operands |
| Vminfo.Hits | lib_vminfo/src/lib.rs:384-402 | hits and misses together number the operands |
| Vminfo.Lookups | lib_vminfo/src/lib.rs:391-397 | one lookup per operand, in order, on its lower-cased name |
| Vminfo.AsU64 | lib_vminfo/src/lib.rs:473 | a count below 2^64 is kept as it is |
| Vminfo.CachedResponse | lib_vminfo/src/lib.rs:459-476 | the cached records, with their count as total |
| Vminfo.Refreshed | lib_vminfo/src/lib.rs:447 | the refresh counts as a recovery exactly when it succeeds, with its error and state |
| Vminfo.LoginKeepsSession | lib_vminfo/src/lib.rs:242-308 | with a token and no force, both logins succeed with no call and no store write |
| Vminfo.ClientCredentialsLogin | lib_vminfo/src/lib.rs:242-275 | otherwise one client-credentials grant with the client's identity and secret; on success the record holds exactly the returned tokens, and on failure nothing is saved and the error is `BadCredentials` |
| Vminfo.DeviceCodeLogin | lib_vminfo/src/lib.rs:277-308 | otherwise one device grant with no secret; on success the saved record keeps the client's own secret setting and the new tokens; failures are `BadRequest` and save nothing |
| Vminfo.ReauthGrants | lib_vminfo/src/lib.rs:310-315 | `reauth` makes exactly one grant: client credentials when a secret is set, device code otherwise |
| Vminfo.RefreshSendsSavedToken | lib_vminfo/src/lib.rs:599-606 | nothing saved gives `MissingToken` with no call; no saved refresh token gives `BadRefresh` with no call; otherwise exactly one refresh grant with the saved token, and a success saves the new pair |
| Vminfo.LoginClientCredentialsStep | lib_vminfo/src/lib.rs:242-275 | the login never touches the cache, and a failed login leaves the store as it was |
| Vminfo.LoginDeviceCodeStep | lib_vminfo/src/lib.rs:277-308 | the login never touches the cache, and a failed login leaves the store as it was |
| Vminfo.ReauthStep | lib_vminfo/src/lib.rs:310-315 | `reauth` never touches the cache and logs exactly one call, after the earlier ones |
| Vminfo.ExchangeRefreshTokenStep | lib_vminfo/src/lib.rs:599-606 | the refresh never touches the cache; a failure leaves the store as it was; a success saves exactly the new token pair |
| Vminfo.RecoveryStep | lib_vminfo/src/lib.rs:420-455 | there is a recovery exactly for `MissingToken` and `TokenExpired`, and it never touches the cache |
| Vminfo.RequestNeedsToken | lib_vminfo/src/lib.rs:509-516 | without a token `request` fails with `MissingToken` before any call |
| Vminfo.RequestStep | lib_vminfo/src/lib.rs:488-579 | `request` leaves the store alone and keeps the cache present or absent; a success needs a saved token and a non-empty page |
| Vminfo.ReplyStep | lib_vminfo/src/lib.rs:541-578 | handling a reply leaves the store alone and keeps the cache present or absent; a success is a non-empty page returned unchanged |
| Vminfo.Body | lib_vminfo/src/lib.rs:499-507 | the body built for a request carries that request's subscription filter and no skip token |
| Vminfo.RequestSendsOnce | lib_vminfo/src/lib.rs:497-539 | with a token, exactly one request is sent, carrying the client's subscription filter and that token; the outcome is the reply's handling, and the store is untouched |
| Vminfo.ReplyOutcomes | lib_vminfo/src/lib.rs:518-578 | transport, decode and vendor errors map to their errors with nothing else changed; vendor errors read `code: message`; an empty page is `NoneFoundError` with the cache untouched; a non-empty page is returned unchanged; with a cache, all its VMs are then cached, each name holding the last VM of that name |
| Vminfo.PutAllLog | lib_vminfo/src/lib.rs:554-560 | puts are logged in order, one per VM, each with the VM and its lower-cased name; the first failing put ends the loop; on success every VM's key is present; other keys are unchanged |
| Vminfo.PutAllStores | lib_vminfo/src/lib.rs:554-560 | after a successful write-back, each VM that no later VM shares a name with is stored under its lower-cased name |
| Vminfo.PutAllStep | lib_vminfo/src/lib.rs:554-560 | the write-back changes neither the store nor the presence of the cache, and logs at most one call per VM |
| Vminfo.Key | lib_vminfo/src/lib.rs:557 | a VM's cache key is its name lower-cased: already lower-case, and as long as the name |
| Vminfo.SplitSnoc | lib_vminfo/src/lib.rs:391-397 | one more operand adds its lookup and goes to exactly one side: its record to the hits when cached, itself to the misses otherwise |
| Vminfo.SplitPartition | lib_vminfo/src/lib.rs:384-402 | every operand goes to exactly one side: an operand is a miss exactly when its lower-cased name is not cached, every cached operand's record is a hit and every hit is such a record; the sides add up to the operands |
| Vminfo.MissesExactly | lib_vminfo/src/lib.rs:391-397 | an operand is a miss exactly when its lower-cased name is not a cache key |
| Vminfo.HitsExactly | lib_vminfo/src/lib.rs:391-397 | every cached operand's record is a hit, and every hit is the record of a cached operand |
| Vminfo.SplitStep | lib_vminfo/src/lib.rs:384-402 | the split changes neither store nor cache, sends each operand to one side, and logs at most one lookup per operand |
| Vminfo.NoCacheNoLookup | lib_vminfo/src/lib.rs:387-402 | with `nocache` or no cache every operand is queried and no lookup is made |
| Vminfo.AllCachedAnswer | lib_vminfo/src/lib.rs:404-476 | all operands cached: no request, and the cached records are the answer with their count |
| Vminfo.FirstRequestSucceeds | lib_vminfo/src/lib.rs:415-419 | on first success the remote data is followed by the cached records, with the remote total |
| Vminfo.ReauthThenRetry | lib_vminfo/src/lib.rs:420-446 | `MissingToken`, or `TokenExpired` with a secret, gives one `reauth`; its failure is returned, otherwise exactly one retry whose outcome is returned as it is |
| Vminfo.RefreshThenRetry | lib_vminfo/src/lib.rs:434-455 | `TokenExpired` without a secret gives one refresh; its failure is returned, otherwise one retry returned as it is |
| Vminfo.OtherOutcomes | lib_vminfo/src/lib.rs:456-468 | `NoneFoundError` with hits gives the cached records with their count; without hits, and for every other non-recoverable kind, the first error is returned with no further call |
| Vminfo.RetryStep | lib_vminfo/src/lib.rs:420-455 | the retry keeps the cache present exactly when it was |
| Vminfo.AfterFirstRequest | lib_vminfo/src/lib.rs:411-468 | the dispatch after the first request keeps the cache present exactly when it was |
| Vminfo.QueryVminfoStep | lib_vminfo/src/lib.rs:374-477 | `query_vminfo` keeps the cache present exactly when it was |
| Vminfo.GraphRequestsAppend | lib_vminfo/src/lib.rs:374-477 | request counts add over concatenated logs |
| Vminfo.LookupsNoRequest | lib_vminfo/src/lib.rs:391-397 | cache lookups send no request |
| Vminfo.PutAllNoRequest | lib_vminfo/src/lib.rs:554-560 | cache writes send no request |
| Vminfo.OneCallNoRequest | lib_vminfo/src/lib.rs:374-477 | logging a call other than a request adds no request |
| Vminfo.RecoveryNoRequest | lib_vminfo/src/lib.rs:310-315 | `reauth` and the refresh send no request |
| Vminfo.ReplyNoRequest | lib_vminfo/src/lib.rs:541-578 | handling the reply, write-back included, sends no request |
| Vminfo.RequestAtMostOne | lib_vminfo/src/lib.rs:488-579 | `request` sends at most one request |
| Vminfo.RetryAtMostOne | lib_vminfo/src/lib.rs:420-455 | a retry sends at most one request |
| Vminfo.AfterFirstAtMostOne | lib_vminfo/src/lib.rs:411-468 | after the first request at most one more is sent |
| Vminfo.AtMostTwoRequests | lib_vminfo/src/lib.rs:374-477 | `query_vminfo` sends at most two Resource Graph requests |
| Vminfo.DisplayRedacts | lib_vminfo/src/lib.rs:630-636 | the rendering depends only on tenant and client id: secret and tokens never show |
| Vminfo.Client.AuthMethod | lib_vminfo/src/lib.rs:320-325 | the client's method is `MethodOf` its settings |
| Vminfo.Client.SaveCredentials | lib_vminfo/src/lib.rs:335-357 | the store afterwards is `Saved` of the old state |
| Vminfo.Client.LoginClientCredentials | lib_vminfo/src/lib.rs:242-275 | the new state and result are `LoginClientCredentialsStep` of the old state |
| Vminfo.Client.LoginDeviceCode | lib_vminfo/src/lib.rs:277-308 | the new state and result are `LoginDeviceCodeStep` of the old state |
| Vminfo.Client.Reauth | lib_vminfo/src/lib.rs:310-315 | the new state and result are `ReauthStep` of the old state |
| Vminfo.Client.ExchangeRefreshToken | lib_vminfo/src/lib.rs:599-606 | the new state and result are `ExchangeRefreshTokenStep` of the old state |
| Vminfo.Client.PutAll | lib_vminfo/src/lib.rs:554-560 | the put loop's new state and result are `PutAllStep` of the old state |
| Vminfo.Client.Request | lib_vminfo/src/lib.rs:488-579 | the new state and result are `RequestStep` of the old state |
| Vminfo.Client.HandleReply | lib_vminfo/src/lib.rs:541-578 | the new state and result are `ReplyStep` of the old state |
| Vminfo.Client.SplitOperands | lib_vminfo/src/lib.rs:384-402 | the split loop's hits, misses and new state are `SplitStep` of the old state |
| Vminfo.Client.QueryVminfo | lib_vminfo/src/lib.rs:374-477 | the new state and result are `QueryVminfoStep` of the old state |
| Vminfo.Client.AfterFirst | lib_vminfo/src/lib.rs:411-468 | the dispatch on the first outcome is `AfterFirstRequest`: recovery and retry, the cached fallback, or the error |
| Vminfo.Client.Retry | lib_vminfo/src/lib.rs:420-455 | the retry is `RetryStep` |
| Vminfo.Client.Recover | lib_vminfo/src/lib.rs:420-455 | the recovery the method runs is `RecoveryStep`; with no recovery the state is untouched |
| Vminfo.Client.Display | lib_vminfo/src/lib.rs:630-636 | the rendering shows the tenant and client id only: it is the same whatever the secret, tokens, cache and log |
| LegacyClient.New | lib_vminfo/src/client/api.rs:40-54 | succeeds exactly when the login does, storing tenant, client, filter verbatim and the login's token; a login error is returned |
| LegacyClient.Body | lib_vminfo/src/client/api.rs:96-103 | the body built from a request's arguments carries their subscription filter |
| LegacyClient.Vminfo | lib_vminfo/src/client/api.rs:77-128 | at or after expiry the call is `AccessTokenExpired`; a success is a non-empty page; every other failure is `VMRequest` or `VMNotFound` |
| LegacyClient.ExpiredNoRequest | lib_vminfo/src/client/api.rs:87-94 | at or after expiry the call fails with `AccessTokenExpired`, whatever the transport, so nothing is sent |
| LegacyClient.LiveOutcome | lib_vminfo/src/client/api.rs:96-127 | before expiry it succeeds exactly on a non-empty page, which it returns unchanged; an empty page is `VMNotFound`; transport failures are `VMRequest` |
| LegacyClient.NewClientFilter | lib_vminfo/src/client/api.rs:40-103 | a client built by `new` sends the filter it was given |
| Pagination.LastPage | src/util.rs:66-68 | the last later page is 0 (none fetched) or above 1, and `last * 1000` never exceeds the total |
| Pagination.PagesUpTo | src/util.rs:68-79 | the later pages succeed exactly when each fetch does, and a failure is the error of one of the fetches |
| Pagination.Collected | src/util.rs:52-83 | a failing first fetch is the result; on success the first page's records come first |
| Pagination.FetchedSkips | src/util.rs:56-76 | the first fetch has no skip and fetch `i` skips `i * 1000` records |
| Pagination.Attempted | src/util.rs:68-76 | the fetched later pages stop at the first failure; when all succeed, all are fetched |
| Pagination.PlannedSkips | src/util.rs:68-69 | there is one planned later fetch per page |
| Pagination.GetVminfoFromRemote | src/util.rs:52-83 | the loop returns exactly `Collected`, and its fetches have exactly the skips of `FetchedSkips` |
| Pagination.PagesAbort | src/util.rs:70-76 | a failing page ends the run with its error and no later fetch |
| Pagination.SinglePageBelowTwoThousand | src/util.rs:66-67 | a total below 2000 gives one fetch, with skip and top unset, and the first page's records |
| Pagination.PlannedSkipsAscending | src/util.rs:66-69 | `page_count` later fetches when above 1, skipping 1000, 2000, …, in order |
| Pagination.TwoThousandFiveHundred | src/util.rs:56-76 | a total of 2500 fetches with skips none, 1000, 2000 |
| Pagination.FetchCount | src/util.rs:66-76 | on success, `page_count + 1` fetches when `page_count > 1`, else one |
| Pagination.PagesInOrder | src/util.rs:68-79 | when every later page succeeds, the run succeeds and holds exactly as many records as those pages together |
| Pagination.FirstFailureReturned | src/util.rs:70-76 | a failing fetch's error is the result, after exactly the fetches before it |
| Pagination.ServedPages | src/util.rs:68-79 | against a catalogue, the later pages are the records from 1000 up to the last page fetched |
| Pagination.Serve | lib_vminfo/src/client/api.rs:119-127 | a catalogue page is at most `top` consecutive records from `skip`, with the catalogue's size as total; an empty page is `VMNotFound` |
| Pagination.CollectsAllOtherwise | src/util.rs:56-82 | up to 1000 records, or above 2000 and not a multiple of 1000, every record is returned |
| Pagination.EmptyCatalogueFails | src/util.rs:56-62 | an empty catalogue makes the single first fetch fail with `VMNotFound`, and that is the result |
| Pagination.PartialSecondPageDropped | src/util.rs:66-67 | between 1000 and 2000 records only the first 1000 are returned |
| Pagination.EmptyLastPageFails | src/util.rs:66-76 | with a multiple of 1000 records, 2000 or more, the loop fetches an empty page and fails with `VMNotFound` |
| Pagination.IntendedLastPage | src/util.rs:66-68 | the corrected last page skips below the total and covers it |
| Pagination.IntendedCollectsAll | src/util.rs:56-82 | with the corrected plan every non-empty catalogue is returned whole |
| Pagination.PlansAgree | src/util.rs:66-68 | the two plans agree wherever the written one already returns every record: up to 1000, and above 2000 when not a multiple of 1000 |
| Credentials.New | src/credentials.rs:9-15 | `new` stores its three fields verbatim |
| Credentials.Mask | src/credentials.rs:25 | the mask is `X` repeated once per byte of the secret, and only `X` |
| Credentials.DisplayShape | src/credentials.rs:18-28 | the rendering is `{ tenant_id: T, client_id: C, client_secret: ` + the mask + ` }` |
| Credentials.SecretNotShown | src/credentials.rs:18-28 | two secrets of the same byte length render alike, so the secret's characters never show |
| Credentials.AsciiMaskLength | src/credentials.rs:25 | an ASCII secret's mask has one `X` per character |
| Text.ToLower | lib_vminfo/src/query.rs:57-61 | each character is lower-cased in place (ASCII letters) |
| Text.ToLowerIdempotent | lib_vminfo/src/query.rs:57-78 | lower-casing twice is lower-casing once |
| Text.ParseDecimal | lib_vminfo/src/auth.rs:137-143 | parsing a rendered `u64` gives it back |
| Text.DecimalInjective | lib_vminfo/src/auth.rs:84-89 | two numbers with the same rendering are equal |
| Text.JoinSnoc | lib_vminfo/src/query.rs:77-79 | appending a name adds the separator and the name to the join |
| Text.AsciiUtf8Len | src/credentials.rs:25 | the byte length of ASCII text is its character count |

## Left out

- HTTP, JSON and OAuth 2.0 wire mechanics. This covers the `reqwest` calls, body decoding,
  `BasicClient` construction, device-code polling with `thread::sleep` and
  `println!`. All of these are the oracle functions of `Services`,
  `Transport`, `SpLogin` and `Remote`.
- URL-parse failures in `login_non_interactive`, `login_interactive` and
  `exchange_refresh_tokens` (lib_vminfo/src/auth.rs:300-312, 350-367, 437-446).
  The token and device-code URLs are `format!`ed around the tenant id
  (lib_vminfo/src/auth.rs:287-290, 341-349, 430-433), and whether the result
  parses is decided by the `url` crate, which is not part of this model. The
  model never produces these errors: neither the `BadRequest` token-URL
  error nor the `ClientCreateError` for a bad device URL
  (lib_vminfo/src/auth.rs:350-355).
- The device-code scopes (`user_impersonation`, `offline_access`) sent by
  `login_interactive` are not modelled.
- The file store (lib_vminfo/src/persistance.rs) is an `Option` of the saved
  record. Writes always succeed, and unreadable or corrupt files are not distinguished
  from a missing record.
- The Redis cache (lib_vminfo/src/caching/) is a map. A failing `get` is a miss, as in
  the code. A failing `put` is an arbitrary error from the oracle, because
  the crate's `error::caching` is not part of this model.
- `access_token()` is called at lib_vminfo/src/lib.rs:245, 280 and 509 but is
  defined nowhere in the crate. The model reads it from the saved record.
- lib_vminfo/src/lib.rs:447 calls `request` on the token pair returned by
  `exchange_refresh_token`. The model follows the evident intent: refresh,
  then retry once on the client.
- `Client::new`, `from_store` and `clear_credential_cache` only wire up the
  store and the cache, and are not modelled. The model's constructor
  takes the store and cache contents directly.
- The wrapped source error of `Error` and its `source()` are not modelled.
- `StatusCode`'s reason phrases are modelled for the common
  statuses only. Others render `<unknown status code>`.
- Vminfo.DebugList: the `{:?}` rendering of the operands in the
  `NoneFoundError` message does not model Rust's escaping of quotes and
  control characters.
- Text.ToLower: lower-cases ASCII letters only. Rust's Unicode
  lower-casing, which can change a string's length, is not modelled.
- QueryRequestTests.SingleHostnameQuery: the assertion at lib_vminfo/src/query.rs:221 that the
  query does not contain `matches regex` is not proved. The rendered query
  is over 2,000 characters long, and showing that a text occurs nowhere in it
  means ruling it out at every position, which is beyond what the solver
  does within the proof budget. `Query.OperatorFollowsHead` states the
  property that matters instead: the operator position holds `in`. The same
  applies to `ManyHostnamesQuery` and to the older tests.
- Query.Build: requires a name in regular-expression mode. With no names,
  `vm_list[0]` (lib_vminfo/src/query.rs:66) panics; a panic is not a result,
  so the model excludes that input. The same requires is on `Query.Make`,
  `Query.SearchOperand`, `LegacyQuery.Build` and `LegacyQuery.Make`
  (lib_vminfo/src/models/query.rs:44), and on the callers that build a body.
- Vminfo.ReplyStep: with a cache, a returned VM whose `vm_name` is `None`
  makes `unwrap` panic at lib_vminfo/src/lib.rs:557. The members about a
  reply, and those about `request` and `query_vminfo`, therefore require
  named VMs only when a cache is present (`Named`, `NamedPages`). Without a
  cache an unnamed VM is returned `Ok`, and the model covers it.
- Auth.ExchangeRefreshTokens: the source reads the reply straight into an
  `AzureTokenResponse` (lib_vminfo/src/auth.rs:455-458). The model's exchange
  hands over the reply's fields, and the field-copying `From` constructor
  builds the response object from them.
- `Display for RestClient` (lib_vminfo/src/client/api.rs:19-24) and the
  superseded client's token request and error formatting
  (lib_vminfo/src/client/auth.rs, lib_vminfo/src/client/error.rs) are not
  modelled.
- The command-line parsing, prompting and configuration-file I/O of
  src/cli.rs, src/main.rs and the rest of src/util.rs are not modelled.
- There is no concurrency and there are no floating-point values. Durations
  are whole seconds plus nanoseconds.

The code behaves as follows in these details, and the model follows it:

- `query_vminfo` consults the cache in regular-expression mode too, looking
  the pattern up as a name.
- The older builder keeps the first name's case.
- The older builder uses the regular expression verbatim.

## Findings

| source | as written | input that shows it | evidently intended | confidence | as-written member | corrected member |
|---|---|---|---|---|---|---|
| src/util.rs:66-67 | `page_count = total / 1000`, and more pages are fetched only when `page_count > 1` | a catalogue of 1500 records: one fetch, 1000 records returned | every record is returned: fetch pages `1..ceil(total/1000)` | high (not executed) | Pagination.PartialSecondPageDropped | Pagination.IntendedCollectsAll |
| src/util.rs:68 | pages `1..=page_count` are fetched | a catalogue of 2000 records: the fetch at skip 2000 is empty, the client answers `VMNotFound` and the whole call fails | stop at the last page that holds records | high (not executed) | Pagination.EmptyLastPageFails | Pagination.IntendedCollectsAll |
