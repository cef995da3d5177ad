/**
 * src/services/api/index.ts: the token accessors, and the shared `api` axios
 * instance with its two interceptors.
 *  - The request interceptor attaches `Authorization: Bearer <token>` (section
 *    2.1 of RFC 6750) to every request whose URL does not mention `login` or
 *    `register`.
 *  - The response interceptor answers a first 401 (section 15.5.2 of RFC 9110)
 *    with one refresh through bare `axios` and one replay through `api`.
 *    A request is marked `_retry` before the refresh, so its replay is never
 *    refreshed again. A missing refresh token or a failed refresh clears both
 *    tokens and sends the window to `/login`.
 *
 * The server is not modelled: each request is given the answers it would get,
 * as a `Script`. `ApiExchange` says what one request through `api` does, as a
 * value; `Client.Send` performs it on the objects and is proved to agree.
 */
module ApiClient {
  import opened Wrappers
  import opened JsText
  import opened JsValues
  import opened Web

  const ApiUrl := "http://localhost:3001/api"
  const TokenKey := "token"
  const RefreshKey := "refreshToken"
  const RefreshUrl := ApiUrl + "/auth/refresh"
  const LoginPage := "/login"
  const NoRefreshToken := "No refresh token available"

  /** A user as the auth endpoints return it. */
  datatype User = User(id: string, email: string, firstName: string, lastName: string, role: string)

  /** The body of a login or refresh response. */
  datatype AuthResponse = AuthResponse(token: string, refreshToken: string, user: User)

  /**
   * Why a promise rejected: an HTTP error, with the response's status and its
   * `data.message` when a response arrived, or an `Error` thrown by the code.
   */
  datatype Failure = Http(status: Option<int>, message: Option<string>) | Thrown(text: string)
  {
    /** `error.response?.status === 401`. */
    predicate Unauthorized() {
      Http? && status == Some(401)
    }

    /** `error.response?.data?.message || fallback`. */
    function MessageOr(fallback: string): (r: string)
      ensures Http? && PropTruthy(message) ==> r == message.value
      ensures !(Http? && PropTruthy(message)) ==> r == fallback
    {
      if Http? && PropTruthy(message) then message.value else fallback
    }
  }

  /** A settled promise: resolved with a value, or rejected. */
  datatype Outcome<T> = Ok(value: T) | Fail(failure: Failure)

  /**
   * What the server answers to one request sent through `api`: the first
   * response, the answer to a refresh, and the answer to the replay. The last
   * two are consulted only if the code gets that far.
   */
  datatype Script<T> = Script(first: Outcome<T>, refresh: Outcome<AuthResponse>, replay: Outcome<T>)

  type Store = map<string, string>

  /** `localStorage.getItem(key)` on a store value. */
  function Lookup(st: Store, key: string): Option<string> {
    if key in st then Some(st[key]) else None
  }

  /** The request interceptor's skip test: a non-empty URL mentioning `login` or `register`. */
  predicate IsAuthEndpoint(url: string) {
    url != "" && (Contains(url, "login") || Contains(url, "register"))
  }

  function Bearer(token: string): string {
    "Bearer " + token
  }

  /** The `Authorization` header the request interceptor leaves on a config carrying `header`. */
  function Intercept(url: string, token: Option<string>, header: Option<string>): (r: Option<string>)
    ensures r != header ==> !IsAuthEndpoint(url) && PropTruthy(token) && r == Some(Bearer(token.value))
    ensures !IsAuthEndpoint(url) && PropTruthy(token) ==> r == Some(Bearer(token.value))
  {
    if IsAuthEndpoint(url) then header
    else if PropTruthy(token) then Some(Bearer(token.value))
    else header
  }

  /** axios merges instance defaults into a request: the request's own header wins. */
  function Merge(own: Option<string>, default: Option<string>): Option<string> {
    if own.Some? then own else default
  }

  /** The request `api` sends for `verb url` when the config already carries `own`. */
  function ApiCall(verb: Verb, url: string, st: Store, own: Option<string>, default: Option<string>): Call {
    Call(verb, url, Intercept(url, Lookup(st, TokenKey), Merge(own, default)), true)
  }

  /** The refresh request: bare `axios`, so no interceptor and no instance default. */
  function RefreshCall(): Call {
    Call(Post, RefreshUrl, None, false)
  }

  /** Storage after a failed refresh: both tokens removed. */
  function Cleared(st: Store): Store {
    st - {TokenKey, RefreshKey}
  }

  /** Everything one request through `api` changes, and how it settles. */
  datatype Exchange<T> = Exchange(result: Outcome<T>, store: Store, defaultAuthorization: Option<string>,
                                  redirected: bool, calls: seq<Call>)

  /** The response interceptor's error handler, run on a request whose `_retry` flag is `retry`. */
  function HandleError<T>(st: Store, default: Option<string>, verb: Verb, url: string, retry: bool,
                          failure: Failure, refresh: Outcome<AuthResponse>, replay: Outcome<T>): Exchange<T>
    decreases if retry then 0 else 1
  {
    if failure.Unauthorized() && !retry then
      var stored := Lookup(st, RefreshKey);
      var attempt: Outcome<AuthResponse> := if PropTruthy(stored) then refresh else Fail(Thrown(NoRefreshToken));
      var sent := if PropTruthy(stored) then [RefreshCall()] else [];
      match attempt
      case Fail(e) => Exchange(Fail(e), Cleared(st), default, true, sent)
      case Ok(res) =>
        var renewed := st[TokenKey := res.token][RefreshKey := res.refreshToken];
        var bearer := Some(Bearer(res.token));
        var replayed := ApiCall(verb, url, renewed, bearer, bearer);
        var rest := match replay
          case Ok(_) => Exchange(replay, renewed, bearer, false, [])
          case Fail(f) => HandleError(renewed, bearer, verb, url, true, f, refresh, replay);
        rest.(calls := sent + [replayed] + rest.calls)
    else
      Exchange(Fail(failure), st, default, false, [])
  }

  /** One request `verb url` through `api`, from storage `st` and instance default `default`. */
  function ApiExchange<T>(st: Store, default: Option<string>, verb: Verb, url: string, s: Script<T>): Exchange<T> {
    var first := ApiCall(verb, url, st, None, default);
    var rest := match s.first
      case Ok(_) => Exchange(s.first, st, default, false, [])
      case Fail(f) => HandleError(st, default, verb, url, false, f, s.refresh, s.replay);
    rest.(calls := [first] + rest.calls)
  }

  // ------------------------------------------------------------ properties

  /** A URL with `login` or `register` anywhere in it keeps whatever header it had. */
  lemma AuthEndpointUntouched(before: string, keyword: string, after: string, token: Option<string>, header: Option<string>)
    requires keyword == "login" || keyword == "register"
    ensures Intercept(before + keyword + after, token, header) == header
  {
    ContainsInfix(before, keyword, after);
    assert |before + keyword + after| > 0;
  }

  /** Success, or a failure other than a 401, settles as it came and changes nothing. */
  lemma PassThrough<T>(st: Store, default: Option<string>, verb: Verb, url: string, s: Script<T>)
    requires !(s.first.Fail? && s.first.failure.Unauthorized())
    ensures var x := ApiExchange(st, default, verb, url, s);
      x.result == s.first && x.store == st && x.defaultAuthorization == default && !x.redirected
      && x.calls == [ApiCall(verb, url, st, None, default)]
  {
  }

  /**
   * At most one refresh and one replay per request: the first request, then
   * possibly the bare refresh call, then possibly the replay through `api`.
   */
  lemma AtMostOneRefresh<T>(st: Store, default: Option<string>, verb: Verb, url: string, s: Script<T>)
    ensures var x := ApiExchange(st, default, verb, url, s);
      1 <= |x.calls| <= 3
      && x.calls[0] == ApiCall(verb, url, st, None, default)
      && (|x.calls| >= 2 ==> x.calls[1] == RefreshCall())
      && (|x.calls| == 3 ==> x.calls[2].verb == verb && x.calls[2].url == url && x.calls[2].intercepted)
  {
  }

  /**
   * A 401 with no usable refresh token, or whose refresh fails, clears both
   * tokens, sends the window to `/login`, and rejects with the refresh error.
   */
  lemma FailedRefreshClearsSession<T>(st: Store, default: Option<string>, verb: Verb, url: string, s: Script<T>)
    requires s.first.Fail? && s.first.failure.Unauthorized()
    requires !PropTruthy(Lookup(st, RefreshKey)) || s.refresh.Fail?
    ensures var x := ApiExchange(st, default, verb, url, s);
      TokenKey !in x.store && RefreshKey !in x.store && x.redirected
      && x.result == Fail(if PropTruthy(Lookup(st, RefreshKey)) then s.refresh.failure else Thrown(NoRefreshToken))
      && (forall k :: k != TokenKey && k != RefreshKey ==> Lookup(x.store, k) == Lookup(st, k))
      && x.defaultAuthorization == default
  {
  }

  /**
   * A 401 whose refresh succeeds stores both new tokens, makes the new bearer
   * the instance default, replays the request with it, and settles as the
   * replay does. A replay answered with 401 again is not refreshed.
   */
  lemma SuccessfulRefreshReplays<T>(st: Store, default: Option<string>, verb: Verb, url: string, s: Script<T>)
    requires s.first.Fail? && s.first.failure.Unauthorized()
    requires PropTruthy(Lookup(st, RefreshKey)) && s.refresh.Ok?
    ensures var x := ApiExchange(st, default, verb, url, s);
      var res := s.refresh.value;
      x.store == st[TokenKey := res.token][RefreshKey := res.refreshToken]
      && x.defaultAuthorization == Some(Bearer(res.token))
      && x.calls == [ApiCall(verb, url, st, None, default), RefreshCall(),
                     Call(verb, url, Some(Bearer(res.token)), true)]
      && x.result == s.replay && !x.redirected
  {
  }

  /** Keys other than the two tokens are never touched. */
  lemma OtherKeysUntouched<T>(st: Store, default: Option<string>, verb: Verb, url: string, s: Script<T>, k: string)
    requires k != TokenKey && k != RefreshKey
    ensures Lookup(ApiExchange(st, default, verb, url, s).store, k) == Lookup(st, k)
  {
  }

  /**
   * The instance default set by a refresh outlives the stored token: once the
   * token is removed, a request still leaves with the old bearer.
   */
  lemma DefaultOutlivesStoredToken(verb: Verb, url: string, st: Store, stale: string)
    requires !IsAuthEndpoint(url) && TokenKey !in st
    ensures ApiCall(verb, url, st, None, Some(Bearer(stale))).authorization == Some(Bearer(stale))
  {
  }

  // --------------------------------------------------------------- objects

  /** The config of one request as the interceptors see it. */
  class RequestConfig {
    const verb: Verb
    const url: string
    /** `headers.Authorization`. */
    var authorization: Option<string>
    /** `_retry`. */
    var retry: bool

    constructor(verb: Verb, url: string)
      ensures this.verb == verb && this.url == url && authorization == None && !retry
    {
      this.verb := verb;
      this.url := url;
      authorization := None;
      retry := false;
    }
  }

  /** The `api` instance with its defaults, and the browser state its interceptors use. */
  class Client {
    const storage: LocalStorage
    const window: Window
    const network: Network
    /** `api.defaults.headers.common['Authorization']`. */
    var defaultAuthorization: Option<string>

    constructor(storage: LocalStorage, window: Window, network: Network)
      ensures this.storage == storage && this.window == window && this.network == network
      ensures defaultAuthorization == None
    {
      this.storage := storage;
      this.window := window;
      this.network := network;
      defaultAuthorization := None;
    }

    /** `getToken()`. */
    function GetToken(): Option<string>
      reads storage
    {
      storage.Get(TokenKey)
    }

    /** `setToken(token)`: only the `'token'` key changes. */
    method SetToken(token: string)
      modifies storage
      ensures storage.items == old(storage.items)[TokenKey := token]
      ensures GetToken() == Some(token)
      ensures Lookup(storage.items, RefreshKey) == Lookup(old(storage.items), RefreshKey)
    {
      storage.Set(TokenKey, token);
    }

    /** `removeToken()`: only the `'token'` key changes. */
    method RemoveToken()
      modifies storage
      ensures storage.items == old(storage.items) - {TokenKey}
      ensures GetToken() == None
      ensures Lookup(storage.items, RefreshKey) == Lookup(old(storage.items), RefreshKey)
    {
      storage.Remove(TokenKey);
    }

    /** The request interceptor. */
    method InterceptRequest(cfg: RequestConfig)
      modifies cfg
      ensures cfg.authorization == Intercept(cfg.url, GetToken(), old(cfg.authorization))
      ensures cfg.retry == old(cfg.retry)
    {
      if cfg.url != "" && (Contains(cfg.url, "login") || Contains(cfg.url, "register")) {
        return;
      }
      var token := GetToken();
      if PropTruthy(token) {
        cfg.authorization := Some(Bearer(token.value));
      }
    }

    /** `api(cfg)` up to the response: merge the defaults, intercept, send. */
    method Dispatch<T>(cfg: RequestConfig, response: Outcome<T>) returns (r: Outcome<T>)
      modifies cfg, network
      ensures cfg.authorization == Intercept(cfg.url, GetToken(), Merge(old(cfg.authorization), defaultAuthorization))
      ensures network.sent == old(network.sent) + [Call(cfg.verb, cfg.url, cfg.authorization, true)]
      ensures cfg.retry == old(cfg.retry) && r == response
    {
      if cfg.authorization.None? {
        cfg.authorization := defaultAuthorization;
      }
      InterceptRequest(cfg);
      network.Send(Call(cfg.verb, cfg.url, cfg.authorization, true));
      r := response;
    }

    /**
     * The response interceptor's error handler. The replay's rejection is not
     * caught by the handler's own `catch` (the replay is returned, not awaited),
     * so it goes through this handler again, where `_retry` passes it on.
     */
    method OnError<T>(cfg: RequestConfig, failure: Failure, refresh: Outcome<AuthResponse>, replay: Outcome<T>)
      returns (r: Outcome<T>)
      modifies this, cfg, storage, window, network
      ensures var x := HandleError(old(storage.items), old(defaultAuthorization), cfg.verb, cfg.url,
                                   old(cfg.retry), failure, refresh, replay);
        r == x.result && storage.items == x.store && defaultAuthorization == x.defaultAuthorization
        && window.hrefs == old(window.hrefs) + (if x.redirected then [LoginPage] else [])
        && network.sent == old(network.sent) + x.calls
      decreases if cfg.retry then 0 else 1
    {
      if failure.Unauthorized() && !cfg.retry {
        cfg.retry := true;
        var attempt := AttemptRefresh(refresh);
        match attempt {
          case Ok(res) =>
            Renew(cfg, res);
            r := Dispatch(cfg, replay);
            if r.Fail? {
              r := OnError(cfg, r.failure, refresh, replay);
            }
          case Fail(e) =>
            EndSession();
            r := Fail(e);
        }
      } else {
        r := Fail(failure);
      }
    }

    /** The refresh call, sent only when a refresh token is stored. */
    method AttemptRefresh(refresh: Outcome<AuthResponse>) returns (attempt: Outcome<AuthResponse>)
      modifies network
      ensures var stored := Lookup(storage.items, RefreshKey);
        attempt == (if PropTruthy(stored) then refresh else Fail(Thrown(NoRefreshToken)))
        && network.sent == old(network.sent) + (if PropTruthy(stored) then [RefreshCall()] else [])
    {
      var stored := storage.Get(RefreshKey);
      if !PropTruthy(stored) {
        attempt := Fail(Thrown(NoRefreshToken));
      } else {
        network.Send(RefreshCall());
        attempt := refresh;
      }
    }

    /** A successful refresh: both tokens stored, the new bearer made the default and put on `cfg`. */
    method Renew(cfg: RequestConfig, res: AuthResponse)
      modifies this, cfg, storage
      ensures storage.items == old(storage.items)[TokenKey := res.token][RefreshKey := res.refreshToken]
      ensures defaultAuthorization == Some(Bearer(res.token)) && cfg.authorization == Some(Bearer(res.token))
      ensures cfg.retry == old(cfg.retry)
    {
      SetToken(res.token);
      storage.Set(RefreshKey, res.refreshToken);
      defaultAuthorization := Some(Bearer(res.token));
      cfg.authorization := Some(Bearer(res.token));
    }

    /** A failed refresh: both tokens removed and the window sent to the login page. */
    method EndSession()
      modifies storage, window
      ensures storage.items == Cleared(old(storage.items))
      ensures window.hrefs == old(window.hrefs) + [LoginPage]
    {
      RemoveToken();
      storage.Remove(RefreshKey);
      window.Assign(LoginPage);
    }

    /** A request `verb url` through `api`, answered by `s`. */
    method Send<T>(verb: Verb, url: string, s: Script<T>) returns (r: Outcome<T>)
      modifies this, storage, window, network
      ensures var x := ApiExchange(old(storage.items), old(defaultAuthorization), verb, url, s);
        r == x.result && storage.items == x.store && defaultAuthorization == x.defaultAuthorization
        && window.hrefs == old(window.hrefs) + (if x.redirected then [LoginPage] else [])
        && network.sent == old(network.sent) + x.calls
    {
      var cfg := new RequestConfig(verb, url);
      var first := Dispatch(cfg, s.first);
      match first {
        case Ok(_) =>
          r := first;
        case Fail(f) =>
          r := OnError(cfg, f, s.refresh, s.replay);
      }
    }
  }
}
