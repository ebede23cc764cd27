/** The promise-based client of index.js: the component access-token cache
    (`this.token` behind the default `getToken`/`saveToken`), the token mint
    `getAccessToken`, the cache-first dispatcher `request`, and the two
    authorization-URL builders.

    Everything outside the process is scripted. The ticket provider, a
    caller-supplied token store, the `api_component_token` endpoint and the
    endpoint a `request` targets are functions from "the how-manieth call is
    this" to its outcome, gathered in an `Env`. A `Tally` counts the calls made
    so far (and records what was sent), so that the i-th call to a collaborator
    reads that collaborator's script at i. One logical call sees one clock
    reading, `env.now`. */
module PromiseComponent {
  import opened Credentials
  import opened UrlText

  /** A parsed JSON response body; an absent `errcode` is 0, and `payload` is
      whatever else the endpoint returns. */
  datatype Body<P> = Body(errcode: int, errmsg: string, payload: P)

  /** What `request-promise` settles with: a rejection (a transport failure or
      a non-2xx status) or a response whose body may be missing. */
  type Http<P> = Result<Option<Body<P>>>

  /** The fields `api_component_token` answers with. */
  datatype Grant = Grant(componentAccessToken: string, expiresIn: int)

  /** The body `getAccessToken` posts to `api_component_token`. */
  datatype MintRequest = MintRequest(componentAppid: string, componentAppsecret: string, verifyTicket: string)

  type Query = map<string, string>

  /** What a caller of `request` chooses: the name of the token parameter and
      extra query entries. (The path, method and body are passed through
      untouched and play no part in the token logic.) */
  datatype Options = Options(accessTokenKey: Option<string>, qs: Query)

  /** Which token-store hooks the constructor was given; a hook not given
      falls back to the in-memory cell `this.token`. */
  datatype Store = Store(suppliedGet: bool, suppliedSave: bool)

  datatype Config = Config(appid: string, appsecret: string, store: Store)

  /** The scripted collaborators of one run. */
  datatype Env<P> = Env(
    now: int,
    ticket: nat -> Result<string>,          // getComponentTicket(Async)
    stored: nat -> Result<Option<Token>>,   // a supplied getToken(Async)
    saved: nat -> Outcome,                  // a supplied saveToken(Async)
    mint: nat -> Http<Grant>,               // POST api_component_token
    reply: nat -> Http<P>)                  // the endpoint `request` calls

  /** How often each collaborator has been called. `refreshes` counts the
      runs of `getAccessToken`, each of which asks for a ticket first;
      `mints` and `sent` record the requests that went out. */
  datatype Tally = Tally(gets: nat, saves: nat, refreshes: nat, mints: seq<MintRequest>, sent: seq<Query>)

  /** The result of a step, the token cell after it, and the tally after it. */
  datatype Step<T> = Step(result: Result<T>, cell: Option<Token>, tally: Tally)

  // ---------------------------------------------------------------------------
  // Envelope check

  /** `transform`: no body is a `WechatAPIError` with code -1, a truthy
      `errcode` is one with that code and `errmsg`, any other body passes. */
  function Transform<P>(body: Option<Body<P>>): (r: Result<Body<P>>)
    ensures r.Success? <==> body.Some? && body.value.errcode == 0
    ensures r.Success? ==> r.value == body.value
    ensures r.Failure? ==> r.error.ApiError? && r.error.code != 0
    ensures body.None? ==> r.error == ApiError(-1, "No body received.")
    ensures body.Some? && body.value.errcode != 0 ==> r.error == ApiError(body.value.errcode, body.value.errmsg)
  {
    match body
    case None => Failure(ApiError(-1, "No body received."))
    case Some(b) => if b.errcode != 0 then Failure(ApiError(b.errcode, b.errmsg)) else Success(b)
  }

  /** `request(...).then(transform)`: a rejection is passed on, a response is checked. */
  function Settle<P>(h: Http<P>): Result<Body<P>>
  {
    match h
    case Failure(e) => Failure(e)
    case Success(body) => Transform(body)
  }

  // ---------------------------------------------------------------------------
  // The token cell and the token mint, as functions of the state

  function GetTokenSpec<P>(c: Config, env: Env<P>, cell: Option<Token>, t: Tally): Step<Option<Token>>
  {
    var t' := t.(gets := t.gets + 1);
    if c.store.suppliedGet then Step(env.stored(t.gets), cell, t') else Step(Success(cell), cell, t')
  }

  function SaveTokenSpec<P>(c: Config, env: Env<P>, token: Token, cell: Option<Token>, t: Tally): Step<Token>
  {
    var t' := t.(saves := t.saves + 1);
    if c.store.suppliedSave then
      match env.saved(t.saves)
      case Pass => Step(Success(token), cell, t')
      case Fail(e) => Step(Failure(e), cell, t')
    else
      Step(Success(token), Some(token), t')
  }

  /** The token `getAccessToken` builds from a mint response. */
  function MintedToken<P>(body: Body<Grant>, env: Env<P>): Token
  {
    Token(body.payload.componentAccessToken, ExpireTime(env.now, body.payload.expiresIn), None)
  }

  function GetAccessTokenSpec<P>(c: Config, env: Env<P>, cell: Option<Token>, t: Tally): Step<Token>
  {
    var t1 := t.(refreshes := t.refreshes + 1);
    match env.ticket(t.refreshes)
    case Failure(e) => Step(Failure(e), cell, t1)
    case Success(ticket) =>
      var t2 := t1.(mints := t1.mints + [MintRequest(c.appid, c.appsecret, ticket)]);
      match Settle(env.mint(|t.mints|))
      case Failure(e) => Step(Failure(e), cell, t2)
      case Success(body) => SaveTokenSpec(c, env, MintedToken(body, env), cell, t2)
  }

  // ---------------------------------------------------------------------------
  // The dispatcher, as functions of the state

  /** The token `request` uses (index.js:87-89): the stored one when not
      retried and valid, a freshly minted one otherwise. */
  function AcquireSpec<P>(c: Config, env: Env<P>, retried: bool, cell: Option<Token>, t: Tally): Step<Token>
  {
    if retried then GetAccessTokenSpec(c, env, cell, t)
    else
      var got := GetTokenSpec(c, env, cell, t);
      match got.result
      case Failure(e) => Step(Failure(e), got.cell, got.tally)
      case Success(cached) =>
        if IsTokenValid(cached, env.now) then Step(Success(cached.value), got.cell, got.tally)
        else GetAccessTokenSpec(c, env, got.cell, got.tally)
  }

  /** `options.accessTokenKey || 'component_access_token'`. */
  function TokenParam(o: Options): string
  {
    if Truthy(o.accessTokenKey) then o.accessTokenKey.value else "component_access_token"
  }

  /** `{ [accessTokenKey]: token.accessToken, ...options.qs }`. */
  function QueryFor(o: Options, token: Token): Query
  {
    map[TokenParam(o) := token.accessToken] + o.qs
  }

  /** `request` as written: one token, one call, the envelope checked. */
  function RequestSpec<P>(c: Config, o: Options, env: Env<P>, retried: bool, cell: Option<Token>, t: Tally): Step<Body<P>>
  {
    var acquired := AcquireSpec(c, env, retried, cell, t);
    match acquired.result
    case Failure(e) => Step(Failure(e), acquired.cell, acquired.tally)
    case Success(token) =>
      var t' := acquired.tally.(sent := acquired.tally.sent + [QueryFor(o, token)]);
      Step(Settle(env.reply(|acquired.tally.sent|)), acquired.cell, t')
  }

  /** The raw response carries the invalid-credential code. */
  predicate AsksForRetry<P>(h: Http<P>)
  {
    h.Success? && h.value.Some? && h.value.value.errcode == InvalidCredential
  }

  /** `request` with the invalid-credential test moved before `transform`, so
      that index.js:101-102 can take effect: one forced refresh and one more call. */
  function RetryingRequestSpec<P>(c: Config, o: Options, env: Env<P>, retried: bool, cell: Option<Token>, t: Tally): (s: Step<Body<P>>)
    ensures |t.sent| <= |s.tally.sent| <= |t.sent| + (if retried then 1 else 2)
    ensures t.refreshes <= s.tally.refreshes <= t.refreshes + (if retried then 1 else 2)
    decreases if retried then 0 else 1
  {
    var acquired := AcquireSpec(c, env, retried, cell, t);
    match acquired.result
    case Failure(e) => Step(Failure(e), acquired.cell, acquired.tally)
    case Success(token) =>
      var h := env.reply(|acquired.tally.sent|);
      var t' := acquired.tally.(sent := acquired.tally.sent + [QueryFor(o, token)]);
      if !retried && AsksForRetry(h) then RetryingRequestSpec(c, o, env, true, acquired.cell, t')
      else Step(Settle(h), acquired.cell, t')
  }

  // ---------------------------------------------------------------------------
  // The client object

  class Component {
    const appid: string
    const appsecret: string
    const store: Store
    /** The in-memory token cell the default `getToken`/`saveToken` share. */
    var token: Option<Token>

    function Conf(): Config
    {
      Config(appid, appsecret, store)
    }

    constructor(appid: string, appsecret: string, store: Store)
      ensures this.appid == appid && this.appsecret == appsecret && this.store == store
      ensures token == None
    {
      this.appid := appid;
      this.appsecret := appsecret;
      this.store := store;
      token := None;
    }

    /** `getTokenAsync`: the supplied hook's answer, or the cell. */
    method GetToken<P>(env: Env<P>, t: Tally) returns (r: Result<Option<Token>>, t': Tally)
      ensures Step(r, token, t') == GetTokenSpec(Conf(), env, token, t)
    {
      t' := t.(gets := t.gets + 1);
      if store.suppliedGet {
        r := env.stored(t.gets);
      } else {
        r := Success(token);
      }
    }

    /** `saveTokenAsync`: the supplied hook's outcome, or a write to the cell. */
    method SaveToken<P>(newToken: Token, env: Env<P>, t: Tally) returns (r: Result<Token>, t': Tally)
      modifies this
      ensures Step(r, token, t') == SaveTokenSpec(Conf(), env, newToken, old(token), t)
    {
      t' := t.(saves := t.saves + 1);
      if store.suppliedSave {
        match env.saved(t.saves)
        case Pass => r := Success(newToken);
        case Fail(e) => r := Failure(e);
      } else {
        token := Some(newToken);
        r := Success(newToken);
      }
    }

    /** `getAccessToken`: ticket, mint, expiry, save. */
    method GetAccessToken<P>(env: Env<P>, t: Tally) returns (r: Result<Token>, t': Tally)
      modifies this
      ensures Step(r, token, t') == GetAccessTokenSpec(Conf(), env, old(token), t)
    {
      var ticket := env.ticket(t.refreshes);
      t' := t.(refreshes := t.refreshes + 1);
      if ticket.Failure? {
        return Failure(ticket.error), t';
      }
      var response := env.mint(|t.mints|);
      t' := t'.(mints := t'.mints + [MintRequest(appid, appsecret, ticket.value)]);
      var result := Settle(response);
      if result.Failure? {
        return Failure(result.error), t';
      }
      var expireTime := env.now + (result.value.payload.expiresIn - 10) * 1000;
      var minted := Token(result.value.payload.componentAccessToken, expireTime, None);
      r, t' := SaveToken(minted, env, t');
    }

    /** Lines 87-89 of `request`: read the cell unless retried, mint when
        retried or when what was read is not valid. */
    method Acquire<P>(env: Env<P>, retried: bool, t: Tally) returns (r: Result<Token>, t': Tally)
      modifies this
      ensures Step(r, token, t') == AcquireSpec(Conf(), env, retried, old(token), t)
    {
      if retried {
        r, t' := GetAccessToken(env, t);
        return;
      }
      var cached;
      cached, t' := GetToken(env, t);
      if cached.Failure? {
        return Failure(cached.error), t';
      }
      if IsTokenValid(cached.value, env.now) {
        r := Success(cached.value.value);
      } else {
        r, t' := GetAccessToken(env, t');
      }
    }

    /** `request` as written. */
    method Request<P>(o: Options, env: Env<P>, retried: bool, t: Tally) returns (r: Result<Body<P>>, t': Tally)
      modifies this
      ensures Step(r, token, t') == RequestSpec(Conf(), o, env, retried, old(token), t)
    {
      var acquired;
      acquired, t' := Acquire(env, retried, t);
      if acquired.Failure? {
        return Failure(acquired.error), t';
      }
      var response := env.reply(|t'.sent|);
      t' := t'.(sent := t'.sent + [QueryFor(o, acquired.value)]);
      r := Settle(response);
      if !retried && r.Success? && r.value.errcode == InvalidCredential {
        // index.js:101-102 would re-enter with retried = true here; `transform`
        // has already turned every nonzero errcode into a failure.
        assert false;
      }
    }

    /** `request` with the invalid-credential test ahead of `transform`. */
    method RetryingRequest<P>(o: Options, env: Env<P>, retried: bool, t: Tally) returns (r: Result<Body<P>>, t': Tally)
      modifies this
      ensures Step(r, token, t') == RetryingRequestSpec(Conf(), o, env, retried, old(token), t)
      decreases if retried then 0 else 1
    {
      var acquired;
      acquired, t' := Acquire(env, retried, t);
      if acquired.Failure? {
        return Failure(acquired.error), t';
      }
      var response := env.reply(|t'.sent|);
      t' := t'.(sent := t'.sent + [QueryFor(o, acquired.value)]);
      if !retried && AsksForRetry(response) {
        r, t' := RetryingRequest(o, env, true, t');
      } else {
        r := Settle(response);
      }
    }
  }

  // ---------------------------------------------------------------------------
  // Authorization URLs

  /** The second argument of `getAuthorizeURL`: absent or falsy, a function
      (then it is the callback), or a truthy value, given as its text. */
  datatype AuthType = Omitted | CallbackInstead | Given(text: string)

  function AuthTypeText(a: AuthType): string
  {
    if a.Given? then a.text else "3"
  }

  /** `getAuthorizeURL`, given the outcome of the `createPreAuthCode` call it
      makes (its `pre_auth_code`, or the error it failed with). */
  function GetAuthorizeURL(appid: string, redirectURI: string, authType: AuthType, preAuthCode: Result<string>): Result<string>
  {
    match preAuthCode
    case Failure(e) => Failure(e)
    case Success(code) =>
      Success(LoginPage + "?component_appid=" + appid + "&pre_auth_code=" + code
              + "&redirect_uri=" + redirectURI + "&auth_type=" + AuthTypeText(authType))
  }

  function AuthorizeParams(appid: string, code: string, redirectURI: string, authType: AuthType): seq<Param>
  {
    [Param("component_appid", appid), Param("pre_auth_code", code),
     Param("redirect_uri", redirectURI), Param("auth_type", AuthTypeText(authType))]
  }

  /** `getOAuthAuthorizeURL`; an omitted scope or state is `None`. */
  function GetOAuthAuthorizeURL(appid: string, authorizerAppid: string, redirectURI: string,
                                scope: Option<string>, state: Option<string>): string
  {
    var sc := if scope.Some? then scope.value else "snsapi_base";
    var st := if state.Some? then state.value else "";
    OAuthPage + "?appid=" + authorizerAppid + "&redirect_uri=" + redirectURI + "&response_type=code&scope=" + sc
      + "&state=" + st + "&component_appid=" + appid + WechatRedirect
  }

  function OAuthParams(appid: string, authorizerAppid: string, redirectURI: string,
                       scope: Option<string>, state: Option<string>): seq<Param>
  {
    [Param("appid", authorizerAppid), Param("redirect_uri", redirectURI), Param("response_type", "code"),
     Param("scope", if scope.Some? then scope.value else "snsapi_base"),
     Param("state", if state.Some? then state.value else ""), Param("component_appid", appid)]
  }

  // ---------------------------------------------------------------------------
  // Properties of the token cell and the mint

  /** With the default hooks, `getToken` returns what `saveToken` last wrote. */
  lemma DefaultCellLastWriteWins<P>(c: Config, env: Env<P>, token: Token, cell: Option<Token>, t: Tally)
    requires !c.store.suppliedGet && !c.store.suppliedSave
    ensures var saved := SaveTokenSpec(c, env, token, cell, t);
            saved.result == Success(token) && saved.cell == Some(token)
            && GetTokenSpec(c, env, saved.cell, saved.tally).result == Success(Some(token))
  {
  }

  /** `getAccessToken` asks for exactly one ticket and posts it with the
      component's identity; the token it returns expires ten seconds before the
      server's `expires_in` says, is saved before it is returned (so the default
      cell then holds it), and a failing ticket provider, mint or save is what it
      fails with. */
  lemma GetAccessTokenMints<P>(c: Config, env: Env<P>, cell: Option<Token>, t: Tally)
    ensures GetAccessTokenSpec(c, env, cell, t).tally.refreshes == t.refreshes + 1
    ensures GetAccessTokenSpec(c, env, cell, t).tally.sent == t.sent
    ensures env.ticket(t.refreshes).Failure? ==>
              GetAccessTokenSpec(c, env, cell, t) == Step(Failure(env.ticket(t.refreshes).error), cell, t.(refreshes := t.refreshes + 1))
    ensures env.ticket(t.refreshes).Success? ==>
              GetAccessTokenSpec(c, env, cell, t).tally.mints
              == t.mints + [MintRequest(c.appid, c.appsecret, env.ticket(t.refreshes).value)]
    ensures env.ticket(t.refreshes).Success? && Settle(env.mint(|t.mints|)).Failure? ==>
              GetAccessTokenSpec(c, env, cell, t).result == Failure(Settle(env.mint(|t.mints|)).error)
    ensures GetAccessTokenSpec(c, env, cell, t).result.Success? ==>
              var grant := Settle(env.mint(|t.mints|)).value.payload;
              GetAccessTokenSpec(c, env, cell, t).result.value
              == Token(grant.componentAccessToken, env.now + (grant.expiresIn - 10) * 1000, None)
    ensures GetAccessTokenSpec(c, env, cell, t).result.Success? && !c.store.suppliedSave ==>
              GetAccessTokenSpec(c, env, cell, t).cell == Some(GetAccessTokenSpec(c, env, cell, t).result.value)
    ensures c.store.suppliedSave ==> GetAccessTokenSpec(c, env, cell, t).cell == cell
    ensures c.store.suppliedSave && env.ticket(t.refreshes).Success? && Settle(env.mint(|t.mints|)).Success?
            && env.saved(t.saves).Fail? ==>
              GetAccessTokenSpec(c, env, cell, t).result == Failure(env.saved(t.saves).error)
  {
  }

  // ---------------------------------------------------------------------------
  // Properties of `request`

  /** Cache hit: not retried and the stored token is valid, so nothing is
      minted and the one call carries the stored token. */
  lemma CacheHitSkipsRefresh<P>(c: Config, o: Options, env: Env<P>, cell: Option<Token>, t: Tally)
    requires GetTokenSpec(c, env, cell, t).result.Success?
    requires IsTokenValid(GetTokenSpec(c, env, cell, t).result.value, env.now)
    ensures var s := RequestSpec(c, o, env, false, cell, t);
            && s.tally.refreshes == t.refreshes && s.tally.mints == t.mints && s.cell == cell
            && s.tally.sent == t.sent + [QueryFor(o, GetTokenSpec(c, env, cell, t).result.value.value)]
            && s.result == Settle(env.reply(|t.sent|))
  {
  }

  /** Retried, or the stored token is absent or stale: exactly one mint
      precedes the call, the call carries the minted token, and a failed mint
      is reported without any call being made. */
  lemma StaleTokenRefreshesOnce<P>(c: Config, o: Options, env: Env<P>, retried: bool, cell: Option<Token>, t: Tally)
    requires retried || (GetTokenSpec(c, env, cell, t).result.Success?
                         && !IsTokenValid(GetTokenSpec(c, env, cell, t).result.value, env.now))
    ensures AcquireSpec(c, env, retried, cell, t).tally.refreshes == t.refreshes + 1
    ensures RequestSpec(c, o, env, retried, cell, t).tally.refreshes == t.refreshes + 1
    ensures var a := AcquireSpec(c, env, retried, cell, t);
            a.result.Success? ==>
              && a.result.value == MintedToken(Settle(env.mint(|t.mints|)).value, env)
              && RequestSpec(c, o, env, retried, cell, t).tally.sent == t.sent + [QueryFor(o, a.result.value)]
    ensures var a := AcquireSpec(c, env, retried, cell, t);
            a.result.Failure? ==>
              RequestSpec(c, o, env, retried, cell, t).result == Failure(a.result.error)
              && RequestSpec(c, o, env, retried, cell, t).tally.sent == t.sent
  {
  }

  /** As written, `request` makes at most one call and at most one mint, and an
      invalid-credential answer is a failure carrying its code after that single
      call: the retry at index.js:101-102 never happens. */
  lemma RequestNeverRetries<P>(c: Config, o: Options, env: Env<P>, retried: bool, cell: Option<Token>, t: Tally, b: Body<P>)
    requires AcquireSpec(c, env, retried, cell, t).result.Success?
    requires env.reply(|AcquireSpec(c, env, retried, cell, t).tally.sent|) == Success(Some(b))
    requires b.errcode == InvalidCredential
    ensures |RequestSpec(c, o, env, retried, cell, t).tally.sent| == |t.sent| + 1
    ensures RequestSpec(c, o, env, retried, cell, t).tally.refreshes <= t.refreshes + 1
    ensures RequestSpec(c, o, env, retried, cell, t).result == Failure(ApiError(InvalidCredential, b.errmsg))
  {
  }

  /** Every failure reaches the caller: a failing store, ticket provider, mint
      or save ends the call with that very error and nothing sent; a failing
      transport ends it with the transport's error. */
  lemma FailuresSurface<P>(c: Config, o: Options, env: Env<P>, retried: bool, cell: Option<Token>, t: Tally)
    ensures !retried && c.store.suppliedGet && env.stored(t.gets).Failure? ==>
              RequestSpec(c, o, env, retried, cell, t).result == Failure(env.stored(t.gets).error)
              && RequestSpec(c, o, env, retried, cell, t).tally.sent == t.sent
              && RequestSpec(c, o, env, retried, cell, t).tally.refreshes == t.refreshes
    ensures retried && env.ticket(t.refreshes).Failure? ==>
              RequestSpec(c, o, env, retried, cell, t).result == Failure(env.ticket(t.refreshes).error)
              && RequestSpec(c, o, env, retried, cell, t).tally.sent == t.sent
    ensures AcquireSpec(c, env, retried, cell, t).result.Failure? ==>
              RequestSpec(c, o, env, retried, cell, t).result == Failure(AcquireSpec(c, env, retried, cell, t).result.error)
    ensures AcquireSpec(c, env, retried, cell, t).result.Success?
            && env.reply(|t.sent|).Failure? ==>
              RequestSpec(c, o, env, retried, cell, t).result == Failure(env.reply(|t.sent|).error)
    ensures RequestSpec(c, o, env, retried, cell, t).result.Success? ==>
              AcquireSpec(c, env, retried, cell, t).result.Success? && Settle(env.reply(|t.sent|)).Success?
  {
    assert AcquireSpec(c, env, retried, cell, t).tally.sent == t.sent;
  }

  /** The token travels under `accessTokenKey` (by default
      `component_access_token`), and every caller-supplied query entry is kept
      and wins over it. */
  lemma QueryCarriesToken(o: Options, token: Token)
    ensures QueryFor(o, token).Keys == {TokenParam(o)} + o.qs.Keys
    ensures TokenParam(o) !in o.qs ==> QueryFor(o, token)[TokenParam(o)] == token.accessToken
    ensures forall k :: k in o.qs ==> QueryFor(o, token)[k] == o.qs[k]
    ensures !Truthy(o.accessTokenKey) ==> TokenParam(o) == "component_access_token"
  {
  }

  /** With the invalid-credential test ahead of `transform`: an
      invalid-credential answer to the first call forces exactly one refresh
      and one more call, whose answer is final, so a second invalid-credential
      answer reaches the caller. */
  lemma RetryingRequestRetriesOnce<P>(c: Config, o: Options, env: Env<P>, cell: Option<Token>, t: Tally)
    requires AcquireSpec(c, env, false, cell, t).result.Success?
    requires AsksForRetry(env.reply(|AcquireSpec(c, env, false, cell, t).tally.sent|))
    ensures var first := AcquireSpec(c, env, false, cell, t);
            RetryingRequestSpec(c, o, env, false, cell, t).tally.refreshes == first.tally.refreshes + 1
    ensures var first := AcquireSpec(c, env, false, cell, t);
            var t1 := first.tally.(sent := first.tally.sent + [QueryFor(o, first.result.value)]);
            var second := AcquireSpec(c, env, true, first.cell, t1);
            second.result.Success? ==>
              && RetryingRequestSpec(c, o, env, false, cell, t).tally.sent
                 == t.sent + [QueryFor(o, first.result.value), QueryFor(o, second.result.value)]
              && RetryingRequestSpec(c, o, env, false, cell, t).result == Settle(env.reply(|t.sent| + 1))
  {
    var first := AcquireSpec(c, env, false, cell, t);
    assert first.tally.sent == t.sent;
  }

  // ---------------------------------------------------------------------------
  // Properties of the URL builders

  /** `getAuthorizeURL` passes the pre-authorization failure on, and otherwise
      is the login page with its four parameters; `auth_type` is 3 unless a
      truthy non-function value was given. */
  lemma AuthorizeUrlShape(appid: string, redirectURI: string, authType: AuthType, preAuthCode: Result<string>)
    ensures preAuthCode.Failure? ==> GetAuthorizeURL(appid, redirectURI, authType, preAuthCode) == Failure(preAuthCode.error)
    ensures preAuthCode.Success? ==>
              GetAuthorizeURL(appid, redirectURI, authType, preAuthCode)
              == Success(LoginPage + "?" + Encode(AuthorizeParams(appid, preAuthCode.value, redirectURI, authType)))
    ensures !authType.Given? ==> AuthTypeText(authType) == "3"
  {
    if preAuthCode.Success? {
      var code, at := preAuthCode.value, AuthTypeText(authType);
      var p0, p1, p2, p3 := Param("component_appid", appid), Param("pre_auth_code", code),
                            Param("redirect_uri", redirectURI), Param("auth_type", at);
      var base := LoginPage + "?";
      LoginLiterals();
      StartQuery(LoginPage, "?component_appid=", "component_appid", appid);
      var u := LoginPage + "?component_appid=" + appid;
      ExtendQuery(base, [p0], u, "&pre_auth_code=", "pre_auth_code", code);
      assert [p0] + [p1] == [p0, p1];
      u := u + "&pre_auth_code=" + code;
      ExtendQuery(base, [p0, p1], u, "&redirect_uri=", "redirect_uri", redirectURI);
      assert [p0, p1] + [p2] == [p0, p1, p2];
      u := u + "&redirect_uri=" + redirectURI;
      ExtendQuery(base, [p0, p1, p2], u, "&auth_type=", "auth_type", at);
      assert [p0, p1, p2] + [p3] == AuthorizeParams(appid, code, redirectURI, authType);
    }
  }

  /** Reading the authorization URL back yields each value that went in. */
  lemma AuthorizeUrlParams(appid: string, code: string, redirectURI: string, authType: AuthType)
    requires Clean(appid) && Clean(code) && Clean(redirectURI) && Clean(AuthTypeText(authType))
    ensures var url := GetAuthorizeURL(appid, redirectURI, authType, Success(code)).value;
            && ParamValue(url, "component_appid") == Some(appid)
            && ParamValue(url, "pre_auth_code") == Some(code)
            && ParamValue(url, "redirect_uri") == Some(redirectURI)
            && ParamValue(url, "auth_type") == Some(AuthTypeText(authType))
  {
    var ps := AuthorizeParams(appid, code, redirectURI, authType);
    AuthorizeUrlShape(appid, redirectURI, authType, Success(code));
    AuthorizeParamsReadable(appid, code, redirectURI, authType);
    LoginPageMarks();
    ParamsOfUrl(LoginPage, ps, "", GetAuthorizeURL(appid, redirectURI, authType, Success(code)).value);
    assert ps[0].key == "component_appid" && ps[1].key == "pre_auth_code";
    assert ps[2].key == "redirect_uri" && ps[3].key == "auth_type";
  }

  /** The login parameters are plain and their keys all different. */
  lemma AuthorizeParamsReadable(appid: string, code: string, redirectURI: string, authType: AuthType)
    requires Clean(appid) && Clean(code) && Clean(redirectURI) && Clean(AuthTypeText(authType))
    ensures AllPlain(AuthorizeParams(appid, code, redirectURI, authType))
    ensures DistinctKeys(AuthorizeParams(appid, code, redirectURI, authType))
  {
    LoginWordsAreIdents();
    LowerIdentPlain("component_appid", appid);
    LowerIdentPlain("pre_auth_code", code);
    LowerIdentPlain("redirect_uri", redirectURI);
    LowerIdentPlain("auth_type", AuthTypeText(authType));
  }

  /** `getOAuthAuthorizeURL` is the consent page with its six parameters,
      ending in `&component_appid=<appid>#wechat_redirect`. */
  lemma OAuthUrlShape(appid: string, authorizerAppid: string, redirectURI: string, scope: Option<string>, state: Option<string>)
    ensures GetOAuthAuthorizeURL(appid, authorizerAppid, redirectURI, scope, state)
            == OAuthPage + "?" + Encode(OAuthParams(appid, authorizerAppid, redirectURI, scope, state)) + WechatRedirect
  {
    var sc := if scope.Some? then scope.value else "snsapi_base";
    var st := if state.Some? then state.value else "";
    var p0, p1, p2 := Param("appid", authorizerAppid), Param("redirect_uri", redirectURI), Param("response_type", "code");
    var p3, p4, p5 := Param("scope", sc), Param("state", st), Param("component_appid", appid);
    var base := OAuthPage + "?";
    OAuthLiterals();
    OAuthTailLiterals();
    StartQuery(OAuthPage, "?appid=", "appid", authorizerAppid);
    var u := OAuthPage + "?appid=" + authorizerAppid;
    ExtendQuery(base, [p0], u, "&redirect_uri=", "redirect_uri", redirectURI);
    assert [p0] + [p1] == [p0, p1];
    u := u + "&redirect_uri=" + redirectURI;
    ExtendQuery(base, [p0, p1], u, "&response_type=", "response_type", "code");
    assert [p0, p1] + [p2] == [p0, p1, p2];
    AppendLiterals(u, "&response_type=", "code", "&scope=");
    u := u + "&response_type=" + "code";
    ExtendQuery(base, [p0, p1, p2], u, "&scope=", "scope", sc);
    assert [p0, p1, p2] + [p3] == [p0, p1, p2, p3];
    u := u + "&scope=" + sc;
    ExtendQuery(base, [p0, p1, p2, p3], u, "&state=", "state", st);
    assert [p0, p1, p2, p3] + [p4] == [p0, p1, p2, p3, p4];
    u := u + "&state=" + st;
    ExtendQuery(base, [p0, p1, p2, p3, p4], u, "&component_appid=", "component_appid", appid);
    assert [p0, p1, p2, p3, p4] + [p5] == OAuthParams(appid, authorizerAppid, redirectURI, scope, state);
  }

  lemma AppendLiterals(u: string, a: string, b: string, c: string)
    ensures u + (a + b + c) == u + a + b + c
  {
  }

  /** The keys and fixed values the consent URL writes are lower-case words. */
  lemma OAuthWordsAreIdents()
    ensures LowerIdent("appid") && LowerIdent("redirect_uri") && LowerIdent("response_type")
    ensures LowerIdent("scope") && LowerIdent("state") && LowerIdent("component_appid")
    ensures LowerIdent("code") && LowerIdent("snsapi_base")
  {
  }

  /** Every parameter of the consent URL is plain when the caller's values are. */
  lemma OAuthParamsPlain(appid: string, authorizerAppid: string, redirectURI: string, scope: Option<string>, state: Option<string>)
    requires Clean(appid) && Clean(authorizerAppid) && Clean(redirectURI)
    requires scope.Some? ==> Clean(scope.value)
    requires state.Some? ==> Clean(state.value)
    ensures AllPlain(OAuthParams(appid, authorizerAppid, redirectURI, scope, state))
  {
    var ps := OAuthParams(appid, authorizerAppid, redirectURI, scope, state);
    OAuthWordsAreIdents();
    LowerIdentClean("code");
    LowerIdentClean("snsapi_base");
    var sc, st := ps[3].value, ps[4].value;
    assert Clean(sc) && Clean(st);
    LowerIdentPlain("appid", authorizerAppid);
    LowerIdentPlain("redirect_uri", redirectURI);
    LowerIdentPlain("response_type", "code");
    LowerIdentPlain("scope", sc);
    LowerIdentPlain("state", st);
    LowerIdentPlain("component_appid", appid);
  }

  /** Reading the consent URL back yields the authorizer, the redirect target
      and the component that went in. */
  lemma OAuthUrlParties(appid: string, authorizerAppid: string, redirectURI: string, scope: Option<string>, state: Option<string>)
    requires Clean(appid) && Clean(authorizerAppid) && Clean(redirectURI)
    requires scope.Some? ==> Clean(scope.value)
    requires state.Some? ==> Clean(state.value)
    ensures var url := GetOAuthAuthorizeURL(appid, authorizerAppid, redirectURI, scope, state);
            && ParamValue(url, "appid") == Some(authorizerAppid)
            && ParamValue(url, "redirect_uri") == Some(redirectURI)
            && ParamValue(url, "component_appid") == Some(appid)
  {
    var ps := OAuthParams(appid, authorizerAppid, redirectURI, scope, state);
    OAuthUrlReadable(appid, authorizerAppid, redirectURI, scope, state);
    assert ps[0].key == "appid" && ps[1].key == "redirect_uri" && ps[5].key == "component_appid";
  }

  /** Reading the consent URL back yields `response_type=code` and the scope
      and state that went in, with `snsapi_base` and the empty state as
      defaults. */
  lemma OAuthUrlGrant(appid: string, authorizerAppid: string, redirectURI: string, scope: Option<string>, state: Option<string>)
    requires Clean(appid) && Clean(authorizerAppid) && Clean(redirectURI)
    requires scope.Some? ==> Clean(scope.value)
    requires state.Some? ==> Clean(state.value)
    ensures var url := GetOAuthAuthorizeURL(appid, authorizerAppid, redirectURI, scope, state);
            && ParamValue(url, "response_type") == Some("code")
            && ParamValue(url, "scope") == Some(if scope.Some? then scope.value else "snsapi_base")
            && ParamValue(url, "state") == Some(if state.Some? then state.value else "")
  {
    var ps := OAuthParams(appid, authorizerAppid, redirectURI, scope, state);
    OAuthUrlReadable(appid, authorizerAppid, redirectURI, scope, state);
    assert ps[2].key == "response_type" && ps[3].key == "scope" && ps[4].key == "state";
  }

  /** Every parameter of the consent URL reads back from it. */
  lemma OAuthUrlReadable(appid: string, authorizerAppid: string, redirectURI: string, scope: Option<string>, state: Option<string>)
    requires Clean(appid) && Clean(authorizerAppid) && Clean(redirectURI)
    requires scope.Some? ==> Clean(scope.value)
    requires state.Some? ==> Clean(state.value)
    ensures var ps := OAuthParams(appid, authorizerAppid, redirectURI, scope, state);
            forall i :: 0 <= i < |ps| ==>
              ParamValue(GetOAuthAuthorizeURL(appid, authorizerAppid, redirectURI, scope, state), ps[i].key) == Some(ps[i].value)
  {
    var ps := OAuthParams(appid, authorizerAppid, redirectURI, scope, state);
    OAuthUrlShape(appid, authorizerAppid, redirectURI, scope, state);
    OAuthParamsPlain(appid, authorizerAppid, redirectURI, scope, state);
    OAuthKeysDistinct(appid, authorizerAppid, redirectURI, scope, state);
    OAuthPageMarks();
    ParamsOfUrl(OAuthPage, ps, WechatRedirect, GetOAuthAuthorizeURL(appid, authorizerAppid, redirectURI, scope, state));
  }

  lemma OAuthKeysDistinct(appid: string, authorizerAppid: string, redirectURI: string, scope: Option<string>, state: Option<string>)
    ensures DistinctKeys(OAuthParams(appid, authorizerAppid, redirectURI, scope, state))
  {
  }

  // ---------------------------------------------------------------------------
  // The redirect target is written unescaped

  /** A redirect target that carries its own query is cut at its first `&`
      when the login URL is read back: the rest reads as a parameter of the
      login page. */
  lemma RedirectQueryIsCut(appid: string, code: string, authType: AuthType, target: string, v: string)
    requires Clean(appid) && Clean(code) && Clean(AuthTypeText(authType)) && Clean(target) && Clean(v)
    ensures var url := GetAuthorizeURL(appid, target + "&b=" + v, authType, Success(code)).value;
            && ParamValue(url, "redirect_uri") == Some(target)
            && ParamValue(url, "redirect_uri") != Some(target + "&b=" + v)
  {
    var r := target + "&b=" + v;
    var ps := AuthorizeParams(appid, code, r, authType);
    var p0, p1, p2, p3 := ps[0], ps[1], ps[2], ps[3];
    var ra, q := Param("redirect_uri", target), Param("b", v);
    var cut := [p0, p1, ra, q, p3];
    AuthorizeUrlShape(appid, r, authType, Success(code));
    assert Field(p2) == Field(ra) + "&" + Field(q) by {
      assert "&b=" == "&" + "b" + "=";
    }
    EncodeSplitsValue(p0, p1, p2, p3, ra, q);
    CutParamsReadable(appid, code, authType, target, v);
    LoginPageMarks();
    ParamsOfUrl(LoginPage, cut, "", GetAuthorizeURL(appid, r, authType, Success(code)).value);
    assert cut[2].key == "redirect_uri";
    assert |target| < |r|;
  }

  lemma CutParamsReadable(appid: string, code: string, authType: AuthType, target: string, v: string)
    requires Clean(appid) && Clean(code) && Clean(AuthTypeText(authType)) && Clean(target) && Clean(v)
    ensures var cut := [Param("component_appid", appid), Param("pre_auth_code", code), Param("redirect_uri", target),
                        Param("b", v), Param("auth_type", AuthTypeText(authType))];
            AllPlain(cut) && DistinctKeys(cut)
  {
    LoginWordsAreIdents();
    LowerIdentPlain("component_appid", appid);
    LowerIdentPlain("pre_auth_code", code);
    LowerIdentPlain("redirect_uri", target);
    LowerIdentPlain("b", v);
    LowerIdentPlain("auth_type", AuthTypeText(authType));
  }

  /** `getAuthorizeURL` with the redirect target percent-escaped, as
      `encodeURIComponent` would write it. */
  function EscapedAuthorizeURL(appid: string, redirectURI: string, authType: AuthType, preAuthCode: Result<string>): Result<string>
  {
    GetAuthorizeURL(appid, Escape(redirectURI), authType, preAuthCode)
  }

  /** With the target escaped, any redirect target, `&` and `#` included,
      reads back whole once decoded, and the other parameters read back as
      before. */
  lemma EscapedRedirectReadsBack(appid: string, code: string, redirectURI: string, authType: AuthType)
    requires Clean(appid) && Clean(code) && Clean(AuthTypeText(authType))
    ensures var url := EscapedAuthorizeURL(appid, redirectURI, authType, Success(code)).value;
            && ParamValue(url, "redirect_uri").Some?
            && Unescape(ParamValue(url, "redirect_uri").value) == redirectURI
            && ParamValue(url, "component_appid") == Some(appid)
            && ParamValue(url, "pre_auth_code") == Some(code)
            && ParamValue(url, "auth_type") == Some(AuthTypeText(authType))
  {
    EscapeClean(redirectURI);
    AuthorizeUrlParams(appid, code, Escape(redirectURI), authType);
    EscapeRoundTrip(redirectURI);
  }
}
