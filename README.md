# wechat-component: the credential cache and the retrying dispatcher, in Dafny

This project models the core of `wechat-component`, a client for a WeChat
Open Platform *component*: a third-party application that acts on behalf of
many *authorizer* accounts. Everything the client does goes through a short-lived
access token. The core is the code that keeps that token:

- it caches the token in a cell, or in a store the integrator supplies;
- it decides locally whether the cached token is still usable;
- it mints a new one from the component's verify ticket;
- it dispatches each API call with the token, re-running the call at most once
  when the upstream rejects the token (error code 40001);
- for an authorizer's API object, it derives the authorizer's token from the
  component's through a refresh-token exchange.

The repository has two variants of this logic, and both are modelled:

- `index.js`, the promise-based client (module `PromiseComponent`);
- `lib/component.js`, the older callback-based client built on `wechat-api`
  (module `CallbackComponent`).

The modules they share are:

- `Credentials`: the token record, `isTokenValid`, `mapToken`, the result
  and error types.
- `UrlText`: query strings written as `k=v&…`, a reader that gets a
  parameter back out of a URL, and `String.prototype.replace` with a string
  pattern.
- `Agreement`: where the two variants must give the same answer (their
  consent URLs).

How the model is built:

- Each outside collaborator is a *script*, a function from "the how-manieth
  call is this" to what that call returns. This covers the ticket provider, the
  supplied `getToken`/`saveToken` hooks, the token endpoints and the endpoint
  being called.
- A `Tally` counts the calls and records what was sent.
- Every operation is a pure function, named `…Spec`, from (configuration,
  scripts, token cell, tally) to (result, cell, tally).
- The client objects are Dafny classes whose `token` field is the cell. Each
  method is proved equal to its `…Spec` function.
- The properties the code promises are lemmas about those functions. They
  include:
  - no mint on a cache hit;
  - exactly one mint when the token is stale or the call is a retry;
  - at most one re-run per logical call, in each of the two nested
    dispatchers;
  - errors reach the caller and the call is not made;
  - the retry reuses the call's own arguments;
  - the authorizer token keeps a new refresh token only when it is truthy;
  - each URL builder's shape, and reading each parameter back out of the URL.

The comment on `request` at `index.js:82-87` promises that an
`invalid credential` (40001) answer triggers a fresh token and one more try,
and the callback variant does exactly that at `lib/component.js:114-118`. The
code of `index.js` does not: `transform` rejects every nonzero `errcode`
before the 40001 test is reached, so a 40001 answer ends in failure after one
call. The model follows the code, records the discrepancy under "Findings",
and proves the intended retry about a corrected dispatcher beside it.

## Model

| member | source | states |
|---|---|---|
| `Credentials.MapTokenFields` | lib/component.js:43-51 | `mapToken` keeps the access token, sets the expiry exactly ten seconds before the server's lifetime ends, and keeps the refresh token exactly when it is truthy |
| `Credentials.ValidityWindow` | index.js:4-6 | a token is valid on an interval that ends strictly at its expiry: valid later implies valid earlier, never valid at or after expiry, never valid when absent |
| `Credentials.FreshTokenValidity` | index.js:69-70 | a freshly minted token is usable at once exactly when its access token is non-empty and the lifetime exceeds the ten-second margin |
| `PromiseComponent.Transform` | index.js:8-24 | succeeds exactly when a body is present with a zero `errcode`, and then returns it unchanged; a missing body is `WechatAPIError` code -1 "No body received."; a nonzero `errcode` is that code with `errmsg` |
| `PromiseComponent.Component.constructor` | index.js:27-54 | the client keeps its appid, secret and hooks, with an empty token cell |
| `PromiseComponent.Component.GetToken` | index.js:42-43 | a supplied store's answer, or else the cell's content, with the cell untouched |
| `PromiseComponent.Component.SaveToken` | index.js:44-53 | a supplied store's outcome, or else a write of the token to the cell |
| `PromiseComponent.Component.GetAccessToken` | index.js:56-78 | one ticket, one mint request with appid, secret and ticket, the envelope checked, the expiry computed, the token saved; the new cell and tally are those `GetAccessTokenSpec` gives |
| `PromiseComponent.Component.Acquire` | index.js:87-89 | no store read when retried; the stored token when valid; otherwise a mint |
| `PromiseComponent.Component.Request` | index.js:80-109 | `request` as written: one token, one call, the envelope checked; the retry branch is proved unreachable |
| `PromiseComponent.RetryingRequestSpec` | index.js:80-109 | with the 40001 test ahead of `transform`, one logical call makes at most two calls and at most two mints (one of each once retried) |
| `PromiseComponent.Component.RetryingRequest` | index.js:80-109 | the corrected `request` on the object: its result, cell and tally are those of `RetryingRequestSpec` |
| `PromiseComponent.DefaultCellLastWriteWins` | index.js:42-52 | with the default hooks, reading the token after a save yields the token saved |
| `PromiseComponent.GetAccessTokenMints` | index.js:56-78 | exactly one ticket and one mint request carrying the component's identity; a ticket, mint or save failure is the result; the token expires ten seconds early, carries no refresh token, and is in the default cell once returned |
| `PromiseComponent.CacheHitSkipsRefresh` | index.js:87-99 | a valid stored token means no mint, an unchanged cell, and one call carrying that token |
| `PromiseComponent.StaleTokenRefreshesOnce` | index.js:87-99 | retried, or a stale or absent stored token: exactly one mint, the call carries the minted token, and a failed mint is reported with nothing sent |
| `PromiseComponent.RequestNeverRetries` | index.js:99-103 | as written, a 40001 answer is a failure with code 40001 after exactly one call and at most one mint |
| `PromiseComponent.FailuresSurface` | index.js:106-108 | a store, ticket, mint, save or transport failure is the call's own result, and nothing is sent when the token could not be had |
| `PromiseComponent.QueryCarriesToken` | index.js:91-98 | the token goes under `accessTokenKey` (default `component_access_token`), and every caller query entry is kept and takes precedence |
| `PromiseComponent.RetryingRequestRetriesOnce` | index.js:101-103 | corrected: a 40001 on the first call forces exactly one more mint and one more call, whose answer is final even if it is 40001 again |
| `PromiseComponent.AuthorizeUrlShape` | index.js:118-135 | a pre-auth-code failure is passed on; otherwise the URL is the login page with the four parameters in order; `auth_type` is 3 unless a truthy non-function value was given |
| `PromiseComponent.AuthorizeUrlParams` | index.js:129 | reading the login URL back gives each of `component_appid`, `pre_auth_code`, `redirect_uri`, `auth_type` as passed in |
| `PromiseComponent.RedirectQueryIsCut` | index.js:129 | a redirect target carrying its own query, `target&b=v`, reads back from the login URL as `target` alone: the unescaped `&` cuts it |
| `PromiseComponent.EscapedRedirectReadsBack` | index.js:129 | with the redirect target percent-escaped, any target, `&` and `#` included, reads back whole once decoded, and the other three parameters read back unchanged |
| `PromiseComponent.OAuthUrlShape` | index.js:199-201 | the OAuth consent URL is the consent page with the six parameters in order, then `#wechat_redirect` |
| `PromiseComponent.OAuthUrlParties` | index.js:199-201 | reading the consent URL back gives the authorizer's appid, the redirect target and the component's appid |
| `PromiseComponent.OAuthUrlGrant` | index.js:199-201 | reading it back gives `response_type=code`, the scope (default `snsapi_base`) and the state (default empty) |
| `PromiseComponent.OAuthUrlReadable` | index.js:199-201 | every one of the six parameters reads back from the consent URL with the value that went in, for values without `&` or `#` |
| `CallbackComponent.PreRequestSpec` | lib/component.js:101-138 | one logical call runs the wrapped method at most twice (once when already retried), mints at most once of its own, and a chain result never asks for a retry |
| `CallbackComponent.MintThenInvokeSpec` | lib/component.js:125-135 | the refresh path mints once (a chain at most once more), runs the wrapped method at most once on the new token with no retry, only appends to the tally, and along a chain never asks for a retry and yields an issued token |
| `CallbackComponent.InvokeSpec` | lib/component.js:122-134 | a run of the wrapped method: at most one endpoint call or one grant request; a chain run answers with an issued token or an error |
| `CallbackComponent.ChainSpec` | lib/component.js:207-228 | the authorizer-token chain runs once, makes no component endpoint call, and makes at most two grant requests and at most one component mint |
| `CallbackComponent.ApiPreRequestSpec` | lib/component.js:12-41 | one call on the authorizer's API runs the endpoint at most twice, the chain at most once, and at most two component mints |
| `CallbackComponent.Component.constructor` | lib/component.js:53-70 | the client keeps appid, secret and hooks, with an empty cell |
| `CallbackComponent.Component.GetToken` | lib/component.js:57-59 | a supplied store's answer, or else the cell's content |
| `CallbackComponent.Component.SaveToken` | lib/component.js:61-68 | a supplied store's outcome, or else a write to the cell |
| `CallbackComponent.Component.GetAccessToken` | lib/component.js:72-99 | ticket, mint request, `mapToken` without a refresh token, save; new cell and tally as `GetAccessTokenSpec` gives them |
| `CallbackComponent.Component.PreRequest` | lib/component.js:101-138 | the object's `preRequest`: result, cell and tally as `PreRequestSpec` gives them |
| `CallbackComponent.Component.Invoke` | lib/component.js:122-134 | the wrapped method run against the current cell, as `InvokeSpec` gives it |
| `CallbackComponent.Component.Chain` | lib/component.js:207-228 | `api._getAccessToken` on the object, as `ChainSpec` gives it |
| `CallbackComponent.Component.GetAPI` | lib/component.js:199-235 | throws "getToken function must be specified to get refreshToken" exactly when `getToken` is not a function; otherwise a new API object for the authorizer, bound to this component, with an empty cell |
| `CallbackComponent.Component.GetOAuth` | lib/component.js:282-313 | the same guard and message; otherwise an OAuth client for the authorizer on behalf of this component |
| `CallbackComponent.Api.constructor` | lib/component.js:205 | the API object keeps the authorizer's appid and its component, with an empty cell |
| `CallbackComponent.Api.GetAccessToken` | lib/component.js:230-232 | the API object's `getAccessToken` is the chain run through the component's `preRequest` |
| `CallbackComponent.Api.PreRequest` | lib/component.js:12-41 | the API object's `preRequest`: result, both cells and tally as `ApiPreRequestSpec` gives them |
| `CallbackComponent.DefaultCellLastWriteWins` | lib/component.js:57-68 | with the default hooks, reading after a save yields the token saved |
| `CallbackComponent.GetAccessTokenMints` | lib/component.js:72-99 | exactly one ticket and one mint request with the component's identity; ticket, mint and save failures are the result; the token carries no refresh token and expires ten seconds early |
| `CallbackComponent.CacheHitInstallsStoredToken` | lib/component.js:109-124 | on a hit the stored token, rebuilt from access token and expiry, is put in the cell and read by the first call; without a 40001 answer that answer is final and nothing is minted |
| `CallbackComponent.StaleTokenForcesOneMint` | lib/component.js:125-135 | retried, or stale or absent: exactly one mint; a failed mint is reported and the endpoint never runs; otherwise one call against the minted token, whose answer (40001 included) reaches the caller |
| `CallbackComponent.InvalidCredentialRetriesOnce` | lib/component.js:114-120 | a 40001 answer on a hit re-enters once as retried from the state the first call left, for two calls at most and one mint at most |
| `CallbackComponent.FailuresReachCaller` | lib/component.js:105-131 | a `getToken` or `getAccessToken` failure goes to the caller's callback and the wrapped method never runs |
| `CallbackComponent.GrantsCarryArguments` | lib/component.js:114-124 | every authorizer-token request a call makes, the retried one included, carries that call's appid and refresh token and reads a component token that is present |
| `CallbackComponent.CallsCarryToken` | lib/component.js:111-134 | every endpoint run reads a component token that `preRequest` put in the cell |
| `CallbackComponent.ChainGetsFetchesSaves` | lib/component.js:207-228 | a failing store is reported; an absent stored token is the `TypeError` of reading its refresh token; success requires the exchange to answer and the save to pass, and yields the mapped answer |
| `CallbackComponent.GrantedRefreshToken` | lib/component.js:218 | the authorizer token keeps the new refresh token exactly when it is truthy and expires ten seconds early; the component's own token never keeps one |
| `CallbackComponent.ApiCacheHitKeepsRefreshToken` | lib/component.js:20-30 | on an API hit the stored token, refresh token included, is installed and read by the first call; when that answer is not 40001 it is final, the cell keeps the stored token and no chain runs |
| `CallbackComponent.ApiInvalidCredentialRetriesOnce` | lib/component.js:22-25 | a 40001 answer on an API hit re-enters once as retried from the state the first call left, for two calls at most and one chain run at most |
| `CallbackComponent.ApiRefreshRunsChain` | lib/component.js:31-38 | retried or stale: the chain runs through the component; its error reaches the caller with no call made, otherwise the call reads the token it issued |
| `CallbackComponent.ApiStoreFailureReachesCaller` | lib/component.js:15-18 | a failing authorizer store ends the call at once with that error |
| `CallbackComponent.LoginUrlShape` | lib/component.js:146-148 | `_getAuthorizeURL` is the login page with three parameters in order |
| `CallbackComponent.LoginUrlParams` | lib/component.js:146-148 | reading it back gives the component's appid, the pre-auth code and the redirect target |
| `CallbackComponent.AuthorizeURLInsertsComponent` | lib/component.js:321-323 | the rewrite puts `&component_appid=<component>` right before the first `#wechat_redirect` and changes nothing else; a URL without it is left as it is |
| `Agreement.LoginUrlsAgree` | lib/component.js:146-148 | the promise variant's login URL is the callback variant's, for the same code, with `&auth_type=` appended |
| `Agreement.OAuthUrlsAgree` | lib/component.js:321-323 | rewriting a library consent URL with the same five parameters gives exactly the promise variant's `getOAuthAuthorizeURL`, for values without `&` or `#` |

## Left out

- HTTP: `request-promise` and `wechat-api`'s `request`, `wrapper`, `postJSON` and `make` are not modelled. Each endpoint's answer is a script; a `wrapper` answer with an `errcode` is an error that still carries its data.
- Clock: `new Date().getTime()` is one reading per logical call, `env.now`. Two readings inside one call cannot differ in the model.
- Concurrency: interleaved callbacks and promises of several calls are not modelled. Each logical call runs alone against the cell.
- Endpoint wrappers: `createPreAuthCode`, `queryAuth`, `getAuthorizerInfo`, `getAuthorizerOption`, `setAuthorizerOption`, `clearQuota`, `getOAuthAccessToken` and `refreshOAuthAccessToken` only pass options to `request` or `preRequest`. They appear as an endpoint the dispatcher runs. `getAuthorizerToken` appears as the wrapped `AuthorizerToken` call.
- `Component.prototype.getAuthorizeURL` (lib/component.js:150-158) composes `createPreAuthCode` with `_getAuthorizeURL`. Only the URL part is modelled. The promise variant's `getAuthorizeURL` takes the pre-auth-code outcome as a parameter.
- `Component.prototype.getOAuthAuthorizeURL` (lib/component.js:237-246) is not modelled. It depends on `querystring` escaping, and escaping is not modelled. The URL readers require values without `&` or `#`, because the source concatenates values unescaped.
- `getOAuth`'s token handling (`processToken`, the `AccessToken` wrapper, and its `getAccessToken`/`refreshAccessToken` overrides at lib/component.js:287-369) is not modelled. Neither is the `wechat-oauth` library. The library's own consent URL is a parameter of `AuthorizeURL`.
- `wechat-api` itself is not part of this model. Its `AccessToken(...).isValid()` is taken to be `isTokenValid`. `AccessToken(a, e, r)` is taken to keep the fields it is given. The API object's stores are scripts.
- `Agreement.OAuthUrlsAgree`: stated for a library URL whose five parameters are written unescaped, in the order `appid, redirect_uri, response_type, scope, state`, because `wechat-oauth` is not part of this model.
- Replacement patterns: `$`-sequences in the replacement string of `String.prototype.replace` are not interpreted. A component appid containing `$&` would be inserted literally.
- Absent stored token in the chain: at lib/component.js:213 the `TypeError` is thrown inside the store's callback, and so escapes to whoever invoked that callback. The model delivers it as the chain's failure, `Thrown(NoStoredToken)`; the message text in `NoStoredToken` is illustrative, since Node's wording depends on its version and on whether the hook yielded `null` or `undefined`.
- JavaScript values: a missing response field is read as the empty string or 0, so the resulting token is never valid. `authType` is its text. Truthiness of numbers and objects is not modelled beyond this.
- `request` options other than `accessTokenKey` and `qs` (`uri`, `baseUrl`, `method`, `body`) are passed through untouched and are not modelled.
- Logging: the production `console.warn` of the default `saveToken` is left out.
- Callback or promise delivery: a result handed to a callback and a settled promise are both the returned `Result`/`Reply`.
- `PromiseComponent.EscapedRedirectReadsBack`: `Escape` writes only `%`, `&` and `#` as percent escapes, the three that change how the query reads back, not every character `encodeURIComponent` escapes; the corrected builder is given for the login URL of `index.js`, and the other two builders would change the same way.

## Findings

| source | as written | input that shows it | evidently intended | confidence | as-written member | corrected member |
|---|---|---|---|---|---|---|
| index.js:99-103 | `transform` runs on the response before the `errcode === 40001` test, and throws for every nonzero `errcode`, so the test never holds and the retry branch is dead | a valid stored token, and the endpoint answering `{errcode: 40001, errmsg: "invalid credential"}`: `request` rejects with that `WechatAPIError` after one call and no mint | test the raw body for 40001 before `transform`, then mint once and repeat the call; the comment at index.js:82-87 describes this recovery, and lib/component.js:114-118 does it | not executed; high | `PromiseComponent.RequestNeverRetries` | `PromiseComponent.RetryingRequestRetriesOnce` |
| index.js:129 | `redirect_uri` is concatenated into the URL without escaping; index.js:200 and lib/component.js:147 do the same | `redirectURI = "https://x/cb?a=1&b=2"`: reading the URL's query back gives `redirect_uri=https://x/cb?a=1`, and `b=2` becomes a parameter of the login page | escape the target with `encodeURIComponent` so that it reads back whole | not executed; medium | `PromiseComponent.RedirectQueryIsCut` | `PromiseComponent.EscapedRedirectReadsBack` |
