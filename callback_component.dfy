/** The callback-based client of lib/component.js: the component token cell
    behind the default `getToken`/`saveToken`, the token mint
    `getAccessToken`, the dispatcher `preRequest` with its one retry on an
    invalid credential, the authorizer-token chain `getAPI` installs (and the
    `API.prototype.preRequest` it feeds), and the URL helpers.

    As in the promise variant, every collaborator is a script indexed by how
    many times it has been called, and one logical call sees one clock reading.
    A wrapped API method is not run: what it delivers to its callback is read
    from a script, and the token cell it would read is recorded. */
module CallbackComponent {
  import opened Credentials
  import opened UrlText

  /** The message `getAPI` and `getOAuth` throw without a `getToken` function. */
  const MissingGetToken: string := "getToken function must be specified to get refreshToken"

  /** The `TypeError` of reading `refreshToken` off an absent stored token;
      the wording is illustrative, as Node's varies with its version. */
  const NoStoredToken: string := "Cannot read property 'refreshToken' of null"

  /** What a wrapped endpoint answers with, beyond its envelope: the token
      fields of a token endpoint, a token this library hands back itself, or
      anything else. */
  datatype Content =
    | Grant(accessToken: string, expiresIn: int, refreshToken: Option<string>)
    | Issued(token: Token)
    | Other

  /** A parsed response; an absent `errcode` is 0. */
  datatype Data = Data(errcode: int, errmsg: string, content: Content)

  /** What a callback receives: data, or an error with the data that came with
      it (the response wrapper passes both when the envelope carries an errcode). */
  datatype Reply = Ok(data: Data) | Err(error: Error, body: Option<Data>)

  /** `data && data.errcode && data.errcode === 40001`. */
  predicate AsksForRetry(r: Reply)
  {
    match r
    case Ok(d) => d.errcode == InvalidCredential
    case Err(_, body) => body.Some? && body.value.errcode == InvalidCredential
  }

  /** `mapToken` applied to a token endpoint's fields; absent fields read as
      an empty access token and a zero lifetime. The component's own mint
      passes no refresh token (`keepRefresh` false). */
  function Granted(now: int, content: Content, keepRefresh: bool): Token
  {
    match content
    case Grant(accessToken, expiresIn, refreshToken) =>
      MapToken(now, accessToken, expiresIn, if keepRefresh then refreshToken else None)
    case _ => MapToken(now, "", 0, None)
  }

  /** The token a successful authorizer-token chain delivered. */
  function TokenOf(content: Content): Option<Token>
  {
    match content
    case Issued(token) => Some(token)
    case _ => None
  }

  /** `API.AccessToken(token.accessToken, token.expireTime)`: the component's
      `preRequest` rebuilds the stored token from its first two fields. */
  function Rebuilt(stored: Option<Token>): Option<Token>
  {
    match stored
    case None => None
    case Some(token) => Some(Token(token.accessToken, token.expireTime, None))
  }

  datatype Store = Store(suppliedGet: bool, suppliedSave: bool)

  datatype Config = Config(appid: string, appsecret: string, store: Store)

  /** The body `getAccessToken` posts to `api_component_token`. */
  datatype MintRequest = MintRequest(componentAppid: string, componentAppsecret: string, verifyTicket: string)

  /** The body posted to `api_authorizer_token`, with the component token cell
      the call reads its `component_access_token` from. */
  datatype GrantRequest = GrantRequest(componentAppid: string, authorizerAppid: string,
                                       refreshToken: Option<string>, componentToken: Option<Token>)

  /** The scripted collaborators of one run. */
  datatype Env = Env(
    now: int,
    ticket: nat -> Result<string>,                   // getComponentTicket
    stored: nat -> Result<Option<Token>>,            // the component's supplied getToken
    saved: nat -> Outcome,                           // the component's supplied saveToken
    mint: nat -> Reply,                              // api_component_token
    authorizerStored: nat -> Result<Option<Token>>,  // the getToken given to getAPI
    authorizerSaved: nat -> Outcome,                 // the saveToken given to getAPI
    grant: nat -> Reply,                             // api_authorizer_token
    reply: nat -> Reply,                             // a component endpoint
    apiReply: nat -> Reply)                          // an endpoint of the authorizer's API

  /** How often each collaborator has been called. `refreshes` counts runs of
      the component's `getAccessToken` (one ticket each), `chains` runs of the
      authorizer-token chain; `calls` and `apiCalls` record the token cell each
      endpoint invocation reads. */
  datatype Tally = Tally(
    gets: nat, saves: nat, refreshes: nat, mints: seq<MintRequest>,
    authorizerGets: nat, authorizerSaves: nat, chains: nat,
    grants: seq<GrantRequest>, calls: seq<Option<Token>>, apiCalls: seq<Option<Token>>)

  /** What `preRequest` wraps: a component endpoint, `getAuthorizerToken`, or
      the authorizer-token chain `api.getAccessToken` passes in. */
  datatype Wrapped =
    | Endpoint
    | AuthorizerToken(authorizerAppid: string, refreshToken: Option<string>)
    | AuthorizerChain(authorizerAppid: string)

  /** A result with the component's token cell and the tally after it. */
  datatype Step<T> = Step(result: T, cell: Option<Token>, tally: Tally)

  /** A result of the authorizer's API with both token cells and the tally. */
  datatype ApiStep = ApiStep(result: Reply, cell: Option<Token>, apiCell: Option<Token>, tally: Tally)

  /** Runs of a wrapped method `preRequest` may make: two before the retry, one after. */
  function Attempts(retried: bool): nat
  {
    if retried then 1 else 2
  }

  function Rank(w: Wrapped): nat
  {
    if w.AuthorizerChain? then 1 else 0
  }

  // ---------------------------------------------------------------------------
  // The component's token cell and mint, as functions of the state

  function GetTokenSpec(c: Config, env: Env, cell: Option<Token>, t: Tally): Step<Result<Option<Token>>>
  {
    var t' := t.(gets := t.gets + 1);
    if c.store.suppliedGet then Step(env.stored(t.gets), cell, t') else Step(Success(cell), cell, t')
  }

  function SaveTokenSpec(c: Config, env: Env, token: Token, cell: Option<Token>, t: Tally): Step<Result<Token>>
  {
    var t' := t.(saves := t.saves + 1);
    if c.store.suppliedSave then
      match env.saved(t.saves)
      case Pass => Step(Success(token), cell, t')
      case Fail(e) => Step(Failure(e), cell, t')
    else
      Step(Success(token), Some(token), t')
  }

  function GetAccessTokenSpec(c: Config, env: Env, cell: Option<Token>, t: Tally): Step<Result<Token>>
  {
    var t1 := t.(refreshes := t.refreshes + 1);
    match env.ticket(t.refreshes)
    case Failure(e) => Step(Failure(e), cell, t1)
    case Success(ticket) =>
      var t2 := t1.(mints := t1.mints + [MintRequest(c.appid, c.appsecret, ticket)]);
      match env.mint(|t.mints|)
      case Err(e, _) => Step(Failure(e), cell, t2)
      case Ok(data) => SaveTokenSpec(c, env, Granted(env.now, data.content, false), cell, t2)
  }

  // ---------------------------------------------------------------------------
  // The component's dispatcher, as functions of the state

  /** `Component.prototype.preRequest` (lib/component.js:101-138). The bounds
      say that one logical call runs the wrapped method at most twice (once
      when already retried) and forces at most one mint of its own. */
  function PreRequestSpec(c: Config, env: Env, w: Wrapped, retried: bool, cell: Option<Token>, t: Tally): (s: Step<Reply>)
    ensures t.refreshes <= s.tally.refreshes <= t.refreshes + (if w.AuthorizerChain? then 2 else 1)
    ensures t.calls <= s.tally.calls
    ensures |s.tally.calls| <= |t.calls| + (if w.Endpoint? then Attempts(retried) else 0)
    ensures t.grants <= s.tally.grants
    ensures |s.tally.grants| <= |t.grants| + (if w.AuthorizerToken? then Attempts(retried) else if w.AuthorizerChain? then 2 else 0)
    ensures t.chains <= s.tally.chains <= t.chains + (if w.AuthorizerChain? then 1 else 0)
    ensures s.tally.apiCalls == t.apiCalls
    ensures w.AuthorizerChain? ==> !AsksForRetry(s.result)
    ensures w.AuthorizerChain? && s.result.Ok? ==> s.result.data.content.Issued?
    decreases Rank(w), if retried then 3 else 4
  {
    var got := GetTokenSpec(c, env, cell, t);
    match got.result
    case Failure(e) => Step(Err(e, None), got.cell, got.tally)
    case Success(stored) =>
      if !retried && stored.Some? && IsTokenValid(Rebuilt(stored), env.now) then
        var run := InvokeSpec(c, env, w, Rebuilt(stored), got.tally);
        if AsksForRetry(run.result) then PreRequestSpec(c, env, w, true, run.cell, run.tally)
        else run
      else
        MintThenInvokeSpec(c, env, w, got.cell, got.tally)
  }

  /** The refresh path of `preRequest` (lib/component.js:125-135): mint, put
      the new token in the cell, run the method with the caller's callback. */
  function MintThenInvokeSpec(c: Config, env: Env, w: Wrapped, cell: Option<Token>, t: Tally): (s: Step<Reply>)
    ensures t.refreshes + 1 <= s.tally.refreshes <= t.refreshes + (if w.AuthorizerChain? then 2 else 1)
    ensures t.calls <= s.tally.calls
    ensures |s.tally.calls| <= |t.calls| + (if w.Endpoint? then 1 else 0)
    ensures t.grants <= s.tally.grants
    ensures |s.tally.grants| <= |t.grants| + (if w.AuthorizerToken? then 1 else if w.AuthorizerChain? then 2 else 0)
    ensures t.chains <= s.tally.chains <= t.chains + (if w.AuthorizerChain? then 1 else 0)
    ensures s.tally.apiCalls == t.apiCalls
    ensures w.AuthorizerChain? ==> !AsksForRetry(s.result)
    ensures w.AuthorizerChain? && s.result.Ok? ==> s.result.data.content.Issued?
    decreases Rank(w), 2
  {
    var minted := GetAccessTokenSpec(c, env, cell, t);
    match minted.result
    case Failure(e) => Step(Err(e, None), minted.cell, minted.tally)
    case Success(token) => InvokeSpec(c, env, w, Some(token), minted.tally)
  }

  /** One run of the wrapped method with the token cell set to `cell`. */
  function InvokeSpec(c: Config, env: Env, w: Wrapped, cell: Option<Token>, t: Tally): (s: Step<Reply>)
    ensures t.refreshes <= s.tally.refreshes <= t.refreshes + (if w.AuthorizerChain? then 1 else 0)
    ensures t.calls <= s.tally.calls
    ensures |s.tally.calls| <= |t.calls| + (if w.Endpoint? then 1 else 0)
    ensures t.grants <= s.tally.grants
    ensures |s.tally.grants| <= |t.grants| + (if w.AuthorizerToken? then 1 else if w.AuthorizerChain? then 2 else 0)
    ensures t.chains <= s.tally.chains <= t.chains + (if w.AuthorizerChain? then 1 else 0)
    ensures s.tally.apiCalls == t.apiCalls
    ensures w.AuthorizerChain? ==> !AsksForRetry(s.result)
    ensures w.AuthorizerChain? && s.result.Ok? ==> s.result.data.content.Issued?
    decreases Rank(w), 1
  {
    match w
    case Endpoint =>
      Step(env.reply(|t.calls|), cell, t.(calls := t.calls + [cell]))
    case AuthorizerToken(authorizerAppid, refreshToken) =>
      var request := GrantRequest(c.appid, authorizerAppid, refreshToken, cell);
      Step(env.grant(|t.grants|), cell, t.(grants := t.grants + [request]))
    case AuthorizerChain(authorizerAppid) =>
      var chained := ChainSpec(c, env, authorizerAppid, cell, t);
      match chained.result
      case Failure(e) => Step(Err(e, None), chained.cell, chained.tally)
      case Success(token) => Step(Ok(Data(0, "", Issued(token))), chained.cell, chained.tally)
  }

  /** `api._getAccessToken` (lib/component.js:207-228): read the authorizer's
      stored token, trade its refresh token for a new one through the
      component, map it and save it. */
  function ChainSpec(c: Config, env: Env, authorizerAppid: string, cell: Option<Token>, t: Tally): (s: Step<Result<Token>>)
    ensures t.refreshes <= s.tally.refreshes <= t.refreshes + 1
    ensures s.tally.calls == t.calls
    ensures t.grants <= s.tally.grants && |s.tally.grants| <= |t.grants| + 2
    ensures s.tally.chains == t.chains + 1
    ensures s.tally.apiCalls == t.apiCalls
    decreases 1, 0
  {
    var t1 := t.(authorizerGets := t.authorizerGets + 1, chains := t.chains + 1);
    match env.authorizerStored(t.authorizerGets)
    case Failure(e) => Step(Failure(e), cell, t1)
    case Success(None) => Step(Failure(Thrown(NoStoredToken)), cell, t1)
    case Success(Some(stored)) =>
      var fetched := PreRequestSpec(c, env, AuthorizerToken(authorizerAppid, stored.refreshToken), false, cell, t1);
      match fetched.result
      case Err(e, _) => Step(Failure(e), fetched.cell, fetched.tally)
      case Ok(data) =>
        var token := Granted(env.now, data.content, true);
        var t2 := fetched.tally.(authorizerSaves := fetched.tally.authorizerSaves + 1);
        match env.authorizerSaved(fetched.tally.authorizerSaves)
        case Fail(e) => Step(Failure(e), fetched.cell, t2)
        case Pass => Step(Success(token), fetched.cell, t2)
  }

  // ---------------------------------------------------------------------------
  // The authorizer's dispatcher, as a function of the state

  /** `API.prototype.preRequest` (lib/component.js:12-41) on an authorizer's
      API object from `getAPI`: like the component's, but the stored token
      keeps its refresh token, and a refresh is a run of the authorizer-token
      chain through the component. */
  function ApiPreRequestSpec(c: Config, env: Env, authorizerAppid: string, retried: bool,
                             cell: Option<Token>, apiCell: Option<Token>, t: Tally): (s: ApiStep)
    ensures t.apiCalls <= s.tally.apiCalls && |s.tally.apiCalls| <= |t.apiCalls| + Attempts(retried)
    ensures t.chains <= s.tally.chains <= t.chains + 1
    ensures t.refreshes <= s.tally.refreshes <= t.refreshes + 2
    ensures s.tally.calls == t.calls
    decreases if retried then 0 else 1
  {
    var t1 := t.(authorizerGets := t.authorizerGets + 1);
    match env.authorizerStored(t.authorizerGets)
    case Failure(e) => ApiStep(Err(e, None), cell, apiCell, t1)
    case Success(stored) =>
      if !retried && stored.Some? && IsTokenValid(stored, env.now) then
        var h := env.apiReply(|t1.apiCalls|);
        var t2 := t1.(apiCalls := t1.apiCalls + [stored]);
        if AsksForRetry(h) then ApiPreRequestSpec(c, env, authorizerAppid, true, cell, stored, t2)
        else ApiStep(h, cell, stored, t2)
      else
        var fetched := PreRequestSpec(c, env, AuthorizerChain(authorizerAppid), false, cell, t1);
        match fetched.result
        case Err(e, _) => ApiStep(Err(e, None), fetched.cell, apiCell, fetched.tally)
        case Ok(data) =>
          var installed := TokenOf(data.content);
          var h := env.apiReply(|fetched.tally.apiCalls|);
          ApiStep(h, fetched.cell, installed, fetched.tally.(apiCalls := fetched.tally.apiCalls + [installed]))
  }

  // ---------------------------------------------------------------------------
  // The objects

  class Component {
    const appid: string
    const appsecret: string
    const store: Store
    /** `this.token`: the default store's cell, and the token every wrapped
        endpoint reads. */
    var token: Option<Token>

    function Conf(): Config
    {
      Config(appid, appsecret, store)
    }

    constructor(appid: string, appsecret: string, store: Store)
      ensures this.appid == appid && this.appsecret == appsecret && this.store == store
      ensures token == None
    {
      this.appid := appid;
      this.appsecret := appsecret;
      this.store := store;
      token := None;
    }

    /** `getToken`: the supplied hook's answer, or the cell. */
    method GetToken(env: Env, t: Tally) returns (r: Result<Option<Token>>, t': Tally)
      ensures Step(r, token, t') == GetTokenSpec(Conf(), env, token, t)
    {
      t' := t.(gets := t.gets + 1);
      if store.suppliedGet {
        r := env.stored(t.gets);
      } else {
        r := Success(token);
      }
    }

    /** `saveToken`: the supplied hook's outcome, or a write to the cell. */
    method SaveToken(newToken: Token, env: Env, t: Tally) returns (r: Result<Token>, t': Tally)
      modifies this
      ensures Step(r, token, t') == SaveTokenSpec(Conf(), env, newToken, old(token), t)
    {
      t' := t.(saves := t.saves + 1);
      if store.suppliedSave {
        match env.saved(t.saves)
        case Pass => r := Success(newToken);
        case Fail(e) => r := Failure(e);
      } else {
        token := Some(newToken);
        r := Success(newToken);
      }
    }

    /** `getAccessToken`: ticket, mint, `mapToken`, save. */
    method GetAccessToken(env: Env, t: Tally) returns (r: Result<Token>, t': Tally)
      modifies this
      ensures Step(r, token, t') == GetAccessTokenSpec(Conf(), env, old(token), t)
    {
      var ticket := env.ticket(t.refreshes);
      t' := t.(refreshes := t.refreshes + 1);
      if ticket.Failure? {
        return Failure(ticket.error), t';
      }
      var response := env.mint(|t.mints|);
      t' := t'.(mints := t'.mints + [MintRequest(appid, appsecret, ticket.value)]);
      if response.Err? {
        return Failure(response.error), t';
      }
      r, t' := SaveToken(Granted(env.now, response.data.content, false), env, t');
    }

    /** `preRequest`: install a valid stored token and run the method with a
        callback that re-enters once on an invalid credential, or mint first
        and run it with the caller's own callback. */
    method PreRequest(w: Wrapped, env: Env, retried: bool, t: Tally) returns (r: Reply, t': Tally)
      modifies this
      ensures Step(r, token, t') == PreRequestSpec(Conf(), env, w, retried, old(token), t)
      decreases Rank(w), if retried then 3 else 4
    {
      var got;
      got, t' := GetToken(env, t);
      if got.Failure? {
        return Err(got.error, None), t';
      }
      var stored := got.value;
      if !retried && stored.Some? && IsTokenValid(Rebuilt(stored), env.now) {
        token := Rebuilt(stored);
        r, t' := Invoke(w, env, t');
        if AsksForRetry(r) {
          r, t' := PreRequest(w, env, true, t');
        }
      } else {
        var minted;
        minted, t' := GetAccessToken(env, t');
        if minted.Failure? {
          return Err(minted.error, None), t';
        }
        token := Some(minted.value);
        r, t' := Invoke(w, env, t');
      }
    }

    /** Run the wrapped method against the current cell. */
    method Invoke(w: Wrapped, env: Env, t: Tally) returns (r: Reply, t': Tally)
      modifies this
      ensures Step(r, token, t') == InvokeSpec(Conf(), env, w, old(token), t)
      decreases Rank(w), 1
    {
      match w
      case Endpoint =>
        r := env.reply(|t.calls|);
        t' := t.(calls := t.calls + [token]);
      case AuthorizerToken(authorizerAppid, refreshToken) =>
        r := env.grant(|t.grants|);
        t' := t.(grants := t.grants + [GrantRequest(appid, authorizerAppid, refreshToken, token)]);
      case AuthorizerChain(authorizerAppid) =>
        var chained;
        chained, t' := Chain(authorizerAppid, env, t);
        if chained.Failure? {
          r := Err(chained.error, None);
        } else {
          r := Ok(Data(0, "", Issued(chained.value)));
        }
    }

    /** `api._getAccessToken` as `getAPI` defines it. */
    method Chain(authorizerAppid: string, env: Env, t: Tally) returns (r: Result<Token>, t': Tally)
      modifies this
      ensures Step(r, token, t') == ChainSpec(Conf(), env, authorizerAppid, old(token), t)
      decreases 1, 0
    {
      t' := t.(authorizerGets := t.authorizerGets + 1, chains := t.chains + 1);
      var stored := env.authorizerStored(t.authorizerGets);
      if stored.Failure? {
        return Failure(stored.error), t';
      }
      if stored.value.None? {
        return Failure(Thrown(NoStoredToken)), t';
      }
      var fetched;
      fetched, t' := PreRequest(AuthorizerToken(authorizerAppid, stored.value.value.refreshToken), env, false, t');
      if fetched.Err? {
        return Failure(fetched.error), t';
      }
      var minted := Granted(env.now, fetched.data.content, true);
      var outcome := env.authorizerSaved(t'.authorizerSaves);
      t' := t'.(authorizerSaves := t'.authorizerSaves + 1);
      if outcome.Fail? {
        return Failure(outcome.error), t';
      }
      r := Success(minted);
    }

    /** `getAPI`: refuses a missing `getToken`, otherwise an API object for
        the authorizer with an empty cell. */
    method GetAPI(authorizerAppid: string, getTokenIsFunction: bool) returns (r: Result<Api>)
      ensures r.Failure? <==> !getTokenIsFunction
      ensures r.Failure? ==> r.error == Thrown(MissingGetToken)
      ensures r.Success? ==> fresh(r.value) && r.value.appid == authorizerAppid
                             && r.value.component == this && r.value.token == None
    {
      if !getTokenIsFunction {
        return Failure(Thrown(MissingGetToken));
      }
      var api := new Api(authorizerAppid, this);
      r := Success(api);
    }

    /** `_getAuthorizeURL`: the login page with the component, the
        pre-authorization code and the redirect target, unescaped. */
    function LoginUrl(preAuthCode: string, redirectURI: string): string
    {
      LoginPage + "?component_appid=" + appid + "&pre_auth_code=" + preAuthCode + "&redirect_uri=" + redirectURI
    }

    /** `getOAuth`: refuses a missing `getToken`, otherwise an OAuth client for
        the authorizer on behalf of this component. */
    function GetOAuth(authorizerAppid: string, getTokenIsFunction: bool): (r: Result<OAuthClient>)
      ensures r.Success? <==> getTokenIsFunction
      ensures r.Failure? ==> r.error == Thrown(MissingGetToken)
      ensures r.Success? ==> r.value.appid == authorizerAppid && r.value.componentAppid == appid
    {
      if getTokenIsFunction then Success(OAuthClient(authorizerAppid, appid)) else Failure(Thrown(MissingGetToken))
    }
  }

  /** The authorizer's API object `getAPI` returns. */
  class Api {
    const appid: string
    const component: Component
    /** `this.token`, set by `preRequest`. */
    var token: Option<Token>

    constructor(appid: string, component: Component)
      ensures this.appid == appid && this.component == component && token == None
    {
      this.appid := appid;
      this.component := component;
      token := None;
    }

    /** `api.getAccessToken` as `getAPI` overrides it: the chain, run through
        the component's `preRequest`. */
    method GetAccessToken(env: Env, t: Tally) returns (r: Reply, t': Tally)
      modifies component
      ensures Step(r, component.token, t')
              == PreRequestSpec(component.Conf(), env, AuthorizerChain(appid), false, old(component.token), t)
    {
      r, t' := component.PreRequest(AuthorizerChain(appid), env, false, t);
    }

    /** `API.prototype.preRequest`. */
    method PreRequest(env: Env, retried: bool, t: Tally) returns (r: Reply, t': Tally)
      modifies this, component
      ensures ApiStep(r, component.token, token, t')
              == ApiPreRequestSpec(component.Conf(), env, appid, retried, old(component.token), old(token), t)
      decreases if retried then 0 else 1
    {
      var stored := env.authorizerStored(t.authorizerGets);
      t' := t.(authorizerGets := t.authorizerGets + 1);
      if stored.Failure? {
        return Err(stored.error, None), t';
      }
      if !retried && stored.value.Some? && IsTokenValid(stored.value, env.now) {
        token := stored.value;
        r := env.apiReply(|t'.apiCalls|);
        t' := t'.(apiCalls := t'.apiCalls + [token]);
        if AsksForRetry(r) {
          r, t' := PreRequest(env, true, t');
        }
      } else {
        var fetched;
        fetched, t' := GetAccessToken(env, t');
        if fetched.Err? {
          return Err(fetched.error, None), t';
        }
        token := TokenOf(fetched.data.content);
        r := env.apiReply(|t'.apiCalls|);
        t' := t'.(apiCalls := t'.apiCalls + [token]);
      }
    }
  }

  /** The OAuth client `getOAuth` returns, reduced to what its overridden
      `getAuthorizeURL` uses. */
  datatype OAuthClient = OAuthClient(appid: string, componentAppid: string)

  /** `getOAuth`'s `getAuthorizeURL`: the library's URL with
      `&component_appid=<component>` put before the first `#wechat_redirect`. */
  function AuthorizeURL(client: OAuthClient, libraryUrl: string): string
  {
    ReplaceFirst(libraryUrl, WechatRedirect, "&component_appid=" + client.componentAppid + WechatRedirect)
  }

  // ---------------------------------------------------------------------------
  // Properties of the token cell and the mint

  /** With the default hooks, `getToken` yields what `saveToken` last wrote. */
  lemma DefaultCellLastWriteWins(c: Config, env: Env, token: Token, cell: Option<Token>, t: Tally)
    requires !c.store.suppliedGet && !c.store.suppliedSave
    ensures var saved := SaveTokenSpec(c, env, token, cell, t);
            saved.result == Success(token) && saved.cell == Some(token)
            && GetTokenSpec(c, env, saved.cell, saved.tally).result == Success(Some(token))
  {
  }

  /** `getAccessToken` asks for one ticket, posts it with the component's
      identity, and returns the mapped token, which carries no refresh token,
      only once it is saved; each failure is what it reports. */
  lemma GetAccessTokenMints(c: Config, env: Env, cell: Option<Token>, t: Tally)
    ensures GetAccessTokenSpec(c, env, cell, t).tally.refreshes == t.refreshes + 1
    ensures GetAccessTokenSpec(c, env, cell, t).tally.calls == t.calls
    ensures env.ticket(t.refreshes).Failure? ==>
              GetAccessTokenSpec(c, env, cell, t).result == Failure(env.ticket(t.refreshes).error)
              && GetAccessTokenSpec(c, env, cell, t).tally.mints == t.mints
    ensures env.ticket(t.refreshes).Success? ==>
              GetAccessTokenSpec(c, env, cell, t).tally.mints
              == t.mints + [MintRequest(c.appid, c.appsecret, env.ticket(t.refreshes).value)]
    ensures env.ticket(t.refreshes).Success? && env.mint(|t.mints|).Err? ==>
              GetAccessTokenSpec(c, env, cell, t).result == Failure(env.mint(|t.mints|).error)
    ensures GetAccessTokenSpec(c, env, cell, t).result.Success? ==>
              && env.mint(|t.mints|).Ok?
              && GetAccessTokenSpec(c, env, cell, t).result.value.refreshToken == None
              && (env.mint(|t.mints|).data.content.Grant? ==>
                    var g := env.mint(|t.mints|).data.content;
                    GetAccessTokenSpec(c, env, cell, t).result.value
                    == Token(g.accessToken, env.now + (g.expiresIn - 10) * 1000, None))
    ensures GetAccessTokenSpec(c, env, cell, t).result.Success? && !c.store.suppliedSave ==>
              GetAccessTokenSpec(c, env, cell, t).cell == Some(GetAccessTokenSpec(c, env, cell, t).result.value)
    ensures c.store.suppliedSave && env.ticket(t.refreshes).Success? && env.mint(|t.mints|).Ok?
            && env.saved(t.saves).Fail? ==>
              GetAccessTokenSpec(c, env, cell, t).result == Failure(env.saved(t.saves).error)
  {
  }

  // ---------------------------------------------------------------------------
  // Properties of the component's `preRequest`

  /** Cache hit: the stored token, rebuilt from its access token and expiry,
      is put in the cell and the endpoint runs against it; unless the answer
      is an invalid credential, that answer is final and nothing is minted. */
  lemma CacheHitInstallsStoredToken(c: Config, env: Env, cell: Option<Token>, t: Tally, stored: Token)
    requires GetTokenSpec(c, env, cell, t).result == Success(Some(stored))
    requires IsTokenValid(Some(stored), env.now)
    ensures var s := PreRequestSpec(c, env, Endpoint, false, cell, t);
            |s.tally.calls| > |t.calls| && s.tally.calls[|t.calls|] == Some(Token(stored.accessToken, stored.expireTime, None))
    ensures !AsksForRetry(env.reply(|t.calls|)) ==>
              var s := PreRequestSpec(c, env, Endpoint, false, cell, t);
              && s.result == env.reply(|t.calls|)
              && s.cell == Some(Token(stored.accessToken, stored.expireTime, None))
              && s.tally.refreshes == t.refreshes && s.tally.mints == t.mints
              && s.tally.calls == t.calls + [s.cell]
  {
    var installed := Rebuilt(Some(stored));
    var first := InvokeSpec(c, env, Endpoint, installed, GetTokenSpec(c, env, cell, t).tally);
    assert first.tally.calls == t.calls + [installed];
  }

  /** Retried, or the stored token is absent or stale: exactly one mint comes
      first; a failed mint is reported and the endpoint never runs; otherwise
      the endpoint runs once against the minted token and its answer, an
      invalid credential included, goes to the caller. */
  lemma StaleTokenForcesOneMint(c: Config, env: Env, retried: bool, cell: Option<Token>, t: Tally)
    requires GetTokenSpec(c, env, cell, t).result.Success?
    requires retried || !IsTokenValid(GetTokenSpec(c, env, cell, t).result.value, env.now)
    ensures PreRequestSpec(c, env, Endpoint, retried, cell, t).tally.refreshes == t.refreshes + 1
    ensures var got := GetTokenSpec(c, env, cell, t);
            var minted := GetAccessTokenSpec(c, env, got.cell, got.tally);
            minted.result.Failure? ==>
              PreRequestSpec(c, env, Endpoint, retried, cell, t).result == Err(minted.result.error, None)
              && PreRequestSpec(c, env, Endpoint, retried, cell, t).tally.calls == t.calls
    ensures var got := GetTokenSpec(c, env, cell, t);
            var minted := GetAccessTokenSpec(c, env, got.cell, got.tally);
            minted.result.Success? ==>
              && PreRequestSpec(c, env, Endpoint, retried, cell, t).result == env.reply(|t.calls|)
              && PreRequestSpec(c, env, Endpoint, retried, cell, t).cell == Some(minted.result.value)
              && PreRequestSpec(c, env, Endpoint, retried, cell, t).tally.calls == t.calls + [Some(minted.result.value)]
  {
    var got := GetTokenSpec(c, env, cell, t);
    var stored := got.result.value;
    assert IsTokenValid(Rebuilt(stored), env.now) == IsTokenValid(stored, env.now);
  }

  /** An invalid-credential answer on a cache hit re-enters `preRequest` once,
      as retried, from the state the first run left; that run makes at most
      one more call and one mint, and answers with the caller's own callback. */
  lemma InvalidCredentialRetriesOnce(c: Config, env: Env, cell: Option<Token>, t: Tally, stored: Token)
    requires GetTokenSpec(c, env, cell, t).result == Success(Some(stored))
    requires IsTokenValid(Some(stored), env.now)
    requires AsksForRetry(env.reply(|t.calls|))
    ensures var installed := Some(Token(stored.accessToken, stored.expireTime, None));
            var first := GetTokenSpec(c, env, cell, t).tally.(calls := t.calls + [installed]);
            PreRequestSpec(c, env, Endpoint, false, cell, t) == PreRequestSpec(c, env, Endpoint, true, installed, first)
    ensures var s := PreRequestSpec(c, env, Endpoint, false, cell, t);
            && |t.calls| + 1 <= |s.tally.calls| <= |t.calls| + 2
            && s.tally.refreshes <= t.refreshes + 1
  {
    var installed := Rebuilt(Some(stored));
    var first := GetTokenSpec(c, env, cell, t).tally.(calls := t.calls + [installed]);
    assert InvokeSpec(c, env, Endpoint, installed, GetTokenSpec(c, env, cell, t).tally).tally == first;
  }

  /** A failing `getToken` or `getAccessToken` is handed to the caller's
      callback, and the wrapped method never runs. */
  lemma FailuresReachCaller(c: Config, env: Env, w: Wrapped, retried: bool, cell: Option<Token>, t: Tally)
    ensures GetTokenSpec(c, env, cell, t).result.Failure? ==>
              && PreRequestSpec(c, env, w, retried, cell, t).result == Err(GetTokenSpec(c, env, cell, t).result.error, None)
              && PreRequestSpec(c, env, w, retried, cell, t).tally == t.(gets := t.gets + 1)
    ensures var got := GetTokenSpec(c, env, cell, t);
            var minted := GetAccessTokenSpec(c, env, got.cell, got.tally);
            got.result.Success? && (retried || !IsTokenValid(got.result.value, env.now)) && minted.result.Failure? ==>
              && PreRequestSpec(c, env, w, retried, cell, t).result == Err(minted.result.error, None)
              && PreRequestSpec(c, env, w, retried, cell, t).tally.calls == t.calls
              && PreRequestSpec(c, env, w, retried, cell, t).tally.grants == t.grants
              && PreRequestSpec(c, env, w, retried, cell, t).tally.chains == t.chains
  {
    var got := GetTokenSpec(c, env, cell, t);
    if got.result.Success? {
      var stored := got.result.value;
      assert IsTokenValid(Rebuilt(stored), env.now) == IsTokenValid(stored, env.now);
    }
  }

  /** Every `api_authorizer_token` request a `getAuthorizerToken` call makes,
      the retried one included, carries that call's own arguments and reads a
      component token that `preRequest` has put in the cell. */
  lemma {:induction false} GrantsCarryArguments(c: Config, env: Env, w: Wrapped, retried: bool, cell: Option<Token>, t: Tally)
    requires w.AuthorizerToken?
    ensures forall i :: |t.grants| <= i < |PreRequestSpec(c, env, w, retried, cell, t).tally.grants| ==>
              && PreRequestSpec(c, env, w, retried, cell, t).tally.grants[i].componentAppid == c.appid
              && PreRequestSpec(c, env, w, retried, cell, t).tally.grants[i].authorizerAppid == w.authorizerAppid
              && PreRequestSpec(c, env, w, retried, cell, t).tally.grants[i].refreshToken == w.refreshToken
              && PreRequestSpec(c, env, w, retried, cell, t).tally.grants[i].componentToken.Some?
    decreases if retried then 0 else 1
  {
    var got := GetTokenSpec(c, env, cell, t);
    if got.result.Success? {
      var stored := got.result.value;
      if !retried && stored.Some? && IsTokenValid(Rebuilt(stored), env.now) {
        var run := InvokeSpec(c, env, w, Rebuilt(stored), got.tally);
        assert run.tally.grants == t.grants + [GrantRequest(c.appid, w.authorizerAppid, w.refreshToken, Rebuilt(stored))];
        if AsksForRetry(run.result) {
          GrantsCarryArguments(c, env, w, true, run.cell, run.tally);
          var s := PreRequestSpec(c, env, w, true, run.cell, run.tally);
          assert run.tally.grants <= s.tally.grants;
          forall i | |t.grants| <= i < |s.tally.grants|
            ensures s.tally.grants[i].componentAppid == c.appid
            ensures s.tally.grants[i].authorizerAppid == w.authorizerAppid
            ensures s.tally.grants[i].refreshToken == w.refreshToken
            ensures s.tally.grants[i].componentToken.Some?
          {
            if i < |run.tally.grants| {
              assert s.tally.grants[i] == run.tally.grants[i];
            }
          }
        }
      } else {
        RefreshPathUnfolds(c, env, w, got.cell, got.tally);
      }
    }
  }

  /** Every component endpoint run reads a token that `preRequest` has put in
      the cell. */
  lemma {:induction false} CallsCarryToken(c: Config, env: Env, retried: bool, cell: Option<Token>, t: Tally)
    ensures forall i :: |t.calls| <= i < |PreRequestSpec(c, env, Endpoint, retried, cell, t).tally.calls| ==>
              PreRequestSpec(c, env, Endpoint, retried, cell, t).tally.calls[i].Some?
    decreases if retried then 0 else 1
  {
    var got := GetTokenSpec(c, env, cell, t);
    if got.result.Success? {
      var stored := got.result.value;
      if !retried && stored.Some? && IsTokenValid(Rebuilt(stored), env.now) {
        var run := InvokeSpec(c, env, Endpoint, Rebuilt(stored), got.tally);
        if AsksForRetry(run.result) {
          CallsCarryToken(c, env, true, run.cell, run.tally);
        }
      } else {
        RefreshPathUnfolds(c, env, Endpoint, got.cell, got.tally);
      }
    }
  }

  /** The refresh path runs the wrapped call once, on the freshly minted token. */
  lemma RefreshPathUnfolds(c: Config, env: Env, w: Wrapped, cell: Option<Token>, t: Tally)
    ensures var minted := GetAccessTokenSpec(c, env, cell, t);
            minted.result.Success? ==>
              MintThenInvokeSpec(c, env, w, cell, t) == InvokeSpec(c, env, w, Some(minted.result.value), minted.tally)
  {
  }

  // ---------------------------------------------------------------------------
  // Properties of the authorizer-token chain

  /** The chain reads the authorizer's stored token first: a failing store is
      reported, an absent token is the `TypeError` of reading its refresh
      token; otherwise it succeeds only when `getAuthorizerToken` answered and
      the save passed, with the answer mapped, new refresh token kept. */
  lemma ChainGetsFetchesSaves(c: Config, env: Env, authorizerAppid: string, cell: Option<Token>, t: Tally)
    ensures env.authorizerStored(t.authorizerGets).Failure? ==>
              ChainSpec(c, env, authorizerAppid, cell, t).result == Failure(env.authorizerStored(t.authorizerGets).error)
              && ChainSpec(c, env, authorizerAppid, cell, t).tally.grants == t.grants
    ensures env.authorizerStored(t.authorizerGets) == Success(None) ==>
              ChainSpec(c, env, authorizerAppid, cell, t).result == Failure(Thrown(NoStoredToken))
              && ChainSpec(c, env, authorizerAppid, cell, t).tally.grants == t.grants
    ensures env.authorizerStored(t.authorizerGets).Success? && env.authorizerStored(t.authorizerGets).value.Some? ==>
              var stored := env.authorizerStored(t.authorizerGets).value.value;
              var t1 := t.(authorizerGets := t.authorizerGets + 1, chains := t.chains + 1);
              var fetched := PreRequestSpec(c, env, AuthorizerToken(authorizerAppid, stored.refreshToken), false, cell, t1);
              && (fetched.result.Err? ==> ChainSpec(c, env, authorizerAppid, cell, t).result == Failure(fetched.result.error))
              && (ChainSpec(c, env, authorizerAppid, cell, t).result.Success? ==>
                    && fetched.result.Ok?
                    && env.authorizerSaved(fetched.tally.authorizerSaves).Pass?
                    && ChainSpec(c, env, authorizerAppid, cell, t).result.value
                       == Granted(env.now, fetched.result.data.content, true))
  {
  }

  /** A granted authorizer token keeps the new refresh token exactly when it is
      truthy and expires ten seconds early; the component's own never keeps one. */
  lemma GrantedRefreshToken(now: int, content: Content)
    ensures Granted(now, content, false).refreshToken == None
    ensures content.Grant? ==>
              && Granted(now, content, true).refreshToken == (if Truthy(content.refreshToken) then content.refreshToken else None)
              && Granted(now, content, true).expireTime + SkewSeconds * 1000 == now + content.expiresIn * 1000
    ensures !content.Grant? ==> !IsTokenValid(Some(Granted(now, content, true)), now)
  {
  }

  // ---------------------------------------------------------------------------
  // Properties of the authorizer's `preRequest`

  /** Cache hit: the stored authorizer token, refresh token included, is put
      in the API object's cell and the first endpoint run reads it; unless the
      answer is an invalid credential, that answer is final and no chain runs. */
  lemma ApiCacheHitKeepsRefreshToken(c: Config, env: Env, authorizerAppid: string, cell: Option<Token>,
                                     apiCell: Option<Token>, t: Tally, stored: Token)
    requires env.authorizerStored(t.authorizerGets) == Success(Some(stored))
    requires IsTokenValid(Some(stored), env.now)
    ensures var s := ApiPreRequestSpec(c, env, authorizerAppid, false, cell, apiCell, t);
            |s.tally.apiCalls| > |t.apiCalls| && s.tally.apiCalls[|t.apiCalls|] == Some(stored)
    ensures !AsksForRetry(env.apiReply(|t.apiCalls|)) ==>
              var s := ApiPreRequestSpec(c, env, authorizerAppid, false, cell, apiCell, t);
              && s.result == env.apiReply(|t.apiCalls|)
              && s.apiCell == Some(stored) && s.cell == cell
              && s.tally.apiCalls == t.apiCalls + [Some(stored)]
              && s.tally.chains == t.chains && s.tally.refreshes == t.refreshes
  {
    if AsksForRetry(env.apiReply(|t.apiCalls|)) {
      var t2 := t.(authorizerGets := t.authorizerGets + 1, apiCalls := t.apiCalls + [Some(stored)]);
      var s := ApiPreRequestSpec(c, env, authorizerAppid, true, cell, Some(stored), t2);
      assert t2.apiCalls <= s.tally.apiCalls;
      assert s.tally.apiCalls[|t.apiCalls|] == t2.apiCalls[|t.apiCalls|];
    }
  }

  /** An invalid-credential answer on the authorizer's cache hit re-enters the
      API object's `preRequest` once, as retried, from the state the first run
      left; that run makes at most one more call and runs the chain at most
      once. */
  lemma ApiInvalidCredentialRetriesOnce(c: Config, env: Env, authorizerAppid: string, cell: Option<Token>,
                                        apiCell: Option<Token>, t: Tally, stored: Token)
    requires env.authorizerStored(t.authorizerGets) == Success(Some(stored))
    requires IsTokenValid(Some(stored), env.now)
    requires AsksForRetry(env.apiReply(|t.apiCalls|))
    ensures ApiPreRequestSpec(c, env, authorizerAppid, false, cell, apiCell, t)
            == ApiPreRequestSpec(c, env, authorizerAppid, true, cell, Some(stored),
                                 t.(authorizerGets := t.authorizerGets + 1, apiCalls := t.apiCalls + [Some(stored)]))
    ensures var s := ApiPreRequestSpec(c, env, authorizerAppid, false, cell, apiCell, t);
            && |t.apiCalls| + 1 <= |s.tally.apiCalls| <= |t.apiCalls| + 2
            && s.tally.chains <= t.chains + 1
  {
  }

  /** Retried, or the stored authorizer token is absent or stale: the chain
      runs through the component; its error goes to the caller with no call
      made, and otherwise the endpoint runs once against the token it issued. */
  lemma ApiRefreshRunsChain(c: Config, env: Env, authorizerAppid: string, retried: bool, cell: Option<Token>,
                            apiCell: Option<Token>, t: Tally)
    requires env.authorizerStored(t.authorizerGets).Success?
    requires retried || !IsTokenValid(env.authorizerStored(t.authorizerGets).value, env.now)
    ensures var t1 := t.(authorizerGets := t.authorizerGets + 1);
            var fetched := PreRequestSpec(c, env, AuthorizerChain(authorizerAppid), false, cell, t1);
            var s := ApiPreRequestSpec(c, env, authorizerAppid, retried, cell, apiCell, t);
            && (fetched.result.Err? ==>
                  s.result == Err(fetched.result.error, None) && s.tally.apiCalls == t.apiCalls && s.apiCell == apiCell)
            && (fetched.result.Ok? ==>
                  && s.apiCell == Some(fetched.result.data.content.token)
                  && s.tally.apiCalls == t.apiCalls + [s.apiCell]
                  && s.result == env.apiReply(|t.apiCalls|))
            && s.cell == fetched.cell
  {
  }

  /** Errors from the authorizer's stored-token hook reach the caller at once. */
  lemma ApiStoreFailureReachesCaller(c: Config, env: Env, authorizerAppid: string, retried: bool, cell: Option<Token>,
                                     apiCell: Option<Token>, t: Tally)
    requires env.authorizerStored(t.authorizerGets).Failure?
    ensures ApiPreRequestSpec(c, env, authorizerAppid, retried, cell, apiCell, t)
            == ApiStep(Err(env.authorizerStored(t.authorizerGets).error, None), cell, apiCell,
                       t.(authorizerGets := t.authorizerGets + 1))
  {
  }

  // ---------------------------------------------------------------------------
  // Properties of the URL helpers

  function LoginParams(appid: string, preAuthCode: string, redirectURI: string): seq<Param>
  {
    [Param("component_appid", appid), Param("pre_auth_code", preAuthCode), Param("redirect_uri", redirectURI)]
  }

  /** `_getAuthorizeURL` is the login page with three parameters. */
  lemma LoginUrlShape(component: Component, preAuthCode: string, redirectURI: string)
    ensures component.LoginUrl(preAuthCode, redirectURI)
            == LoginPage + "?" + Encode(LoginParams(component.appid, preAuthCode, redirectURI))
  {
    var p0, p1 := Param("component_appid", component.appid), Param("pre_auth_code", preAuthCode);
    var p2 := Param("redirect_uri", redirectURI);
    var base := LoginPage + "?";
    LoginLiterals();
    StartQuery(LoginPage, "?component_appid=", "component_appid", component.appid);
    var u := LoginPage + "?component_appid=" + component.appid;
    ExtendQuery(base, [p0], u, "&pre_auth_code=", "pre_auth_code", preAuthCode);
    assert [p0] + [p1] == [p0, p1];
    u := u + "&pre_auth_code=" + preAuthCode;
    ExtendQuery(base, [p0, p1], u, "&redirect_uri=", "redirect_uri", redirectURI);
    assert [p0, p1] + [p2] == LoginParams(component.appid, preAuthCode, redirectURI);
  }

  /** Reading the login URL back yields each value that went in. */
  lemma LoginUrlParams(component: Component, preAuthCode: string, redirectURI: string)
    requires Clean(component.appid) && Clean(preAuthCode) && Clean(redirectURI)
    ensures var url := component.LoginUrl(preAuthCode, redirectURI);
            && ParamValue(url, "component_appid") == Some(component.appid)
            && ParamValue(url, "pre_auth_code") == Some(preAuthCode)
            && ParamValue(url, "redirect_uri") == Some(redirectURI)
  {
    var ps := LoginParams(component.appid, preAuthCode, redirectURI);
    LoginUrlShape(component, preAuthCode, redirectURI);
    LoginParamsReadable(component.appid, preAuthCode, redirectURI);
    LoginPageMarks();
    ParamsOfUrl(LoginPage, ps, "", component.LoginUrl(preAuthCode, redirectURI));
    assert ps[0].key == "component_appid" && ps[1].key == "pre_auth_code" && ps[2].key == "redirect_uri";
  }

  /** The login parameters are plain and their keys all different. */
  lemma LoginParamsReadable(appid: string, preAuthCode: string, redirectURI: string)
    requires Clean(appid) && Clean(preAuthCode) && Clean(redirectURI)
    ensures AllPlain(LoginParams(appid, preAuthCode, redirectURI))
    ensures DistinctKeys(LoginParams(appid, preAuthCode, redirectURI))
  {
    LoginWordsAreIdents();
    LowerIdentPlain("component_appid", appid);
    LowerIdentPlain("pre_auth_code", preAuthCode);
    LowerIdentPlain("redirect_uri", redirectURI);
  }

  /** The rewritten `getAuthorizeURL` puts `&component_appid=<component>`
      right before the first `#wechat_redirect` and changes nothing else; a
      URL without that fragment is returned as it is. */
  lemma AuthorizeURLInsertsComponent(client: OAuthClient, libraryUrl: string)
    ensures IndexOf(libraryUrl, WechatRedirect).None? ==> AuthorizeURL(client, libraryUrl) == libraryUrl
    ensures IndexOf(libraryUrl, WechatRedirect).Some? ==>
              var i := IndexOf(libraryUrl, WechatRedirect).value;
              AuthorizeURL(client, libraryUrl)
              == libraryUrl[..i] + ("&component_appid=" + client.componentAppid) + libraryUrl[i..]
  {
    InsertBeforeFirst(libraryUrl, WechatRedirect, "&component_appid=" + client.componentAppid);
  }
}
