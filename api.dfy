// src/utils/api.js: the axios client. Its base URL, the token helpers that
// keep "accessToken", the legacy "token" key and the default header in step,
// the request interceptor, and the response interceptor that answers a 401 by
// one shared refresh and a single replay of each waiting request.

module Api {
  import opened Js
  import opened Session

  // ---------------------------------------------------------------- base URL

  /** `(VITE_API_BASE_URL || "").trim() || "/api"`, less one trailing slash. */
  function NormalizeBase(env: Option<string>): (base: string)
    ensures Trim(Str(env)) == "" ==> base == "/api"
    ensures Trim(Str(env)) != "" && !EndsWith(Trim(Str(env)), "/") ==> base == Trim(Str(env))
    ensures Trim(Str(env)) != "" && EndsWith(Trim(Str(env)), "/") ==> base + "/" == Trim(Str(env))
  {
    var raw := if Trim(Str(env)) != "" then Trim(Str(env)) else "/api";
    if EndsWith(raw, "/") then raw[..|raw| - 1] else raw
  }

  // ---------------------------------------------------------------- token storage

  /** `getToken()`: "accessToken" first, then the legacy "token". */
  function ApiGetToken(storage: map<string, string>): (r: Option<string>)
    ensures Truthy(Get(storage, AccessTokenKey)) ==> r == Get(storage, AccessTokenKey)
    ensures !Truthy(Get(storage, AccessTokenKey)) ==> r == Get(storage, TokenKey)
    ensures Truthy(r) <==> Truthy(Get(storage, AccessTokenKey)) || Truthy(Get(storage, TokenKey))
  {
    Or(Get(storage, AccessTokenKey), Get(storage, TokenKey))
  }

  /** What `setToken(t)` does to localStorage: a truthy `t` goes under both keys, otherwise both go. */
  function ApiStoreToken(storage: map<string, string>, t: Option<string>): (r: map<string, string>)
    ensures Truthy(t) ==> Get(r, AccessTokenKey) == t && Get(r, TokenKey) == t
    ensures !Truthy(t) ==> Get(r, AccessTokenKey) == None && Get(r, TokenKey) == None
    ensures forall k :: k != AccessTokenKey && k != TokenKey ==> Get(r, k) == Get(storage, k)
  {
    if Truthy(t) then storage[AccessTokenKey := t.value][TokenKey := t.value]
    else storage - {AccessTokenKey, TokenKey}
  }

  /** Whatever was stored before, `getToken` reads back what `setToken` wrote. */
  lemma GetAfterSet(storage: map<string, string>, t: Option<string>)
    ensures ApiGetToken(ApiStoreToken(storage, t)) == (if Truthy(t) then t else None)
  {
  }

  // ---------------------------------------------------------------- URLs

  /** `cleanRelativeUrl(u)`: None stands for a value that is not a string. */
  function CleanRelativeUrl(u: Option<string>): (r: Option<string>)
    ensures u.None? || IsHttpUrl(u.value) ==> r == u
    ensures u.Some? && !IsHttpUrl(u.value) ==>
              r.Some? && StartsWith(r.value, "/") && (r.value == u.value || r.value == "/" + u.value)
  {
    if u.None? || IsHttpUrl(u.value) then u
    else if StartsWith(u.value, "/") then u
    else Some("/" + u.value)
  }

  lemma CleanRelativeUrlIdempotent(u: Option<string>)
    ensures CleanRelativeUrl(CleanRelativeUrl(u)) == CleanRelativeUrl(u)
  {
    var r := CleanRelativeUrl(u);
    if r.Some? && !IsHttpUrl(r.value) {
      assert StartsWith(r.value, "/");
    }
  }

  /** `pathnameOf(url)`: the lower-cased pathname `resolve` (`new URL(u, origin)`) finds, else the lower-cased text. */
  function PathnameOf(url: Option<string>, resolve: UrlParser): (r: string)
    ensures ToLower(r) == r
  {
    var text := if url.Some? then url.value else "undefined";
    match resolve(text)
    case Some(parsed) => ToLowerIdempotent(parsed.pathname); ToLower(parsed.pathname)
    case None => ToLowerIdempotent(Str(url)); ToLower(Str(url))
  }

  /** The six endings `isAuthEndpointUrl` checks. */
  predicate IsAuthPath(p: string) {
    EndsWith(p, "/auth/login") || EndsWith(p, "/auth/register") || EndsWith(p, "/auth/refresh")
    || EndsWith(p, "/auth/logout") || EndsWith(p, "/password/forgot") || EndsWith(p, "/password/reset")
  }

  /** The endings `isAuthEndpointUrl` lists, in its order. */
  const AuthEndings: seq<string> :=
    ["/auth/login", "/auth/register", "/auth/refresh", "/auth/logout", "/password/forgot", "/password/reset"]

  /** `isAuthEndpointUrl(url)`: only the pathname counts, so the host, query and letter case do not. */
  function IsAuthEndpointUrl(url: Option<string>, resolve: UrlParser): (r: bool)
    ensures r <==> exists k :: 0 <= k < |AuthEndings| && EndsWith(PathnameOf(url, resolve), AuthEndings[k])
    ensures r ==> |PathnameOf(url, resolve)| >= 11
  {
    var p := PathnameOf(url, resolve);
    assert AuthEndings[0] == "/auth/login" && AuthEndings[1] == "/auth/register" && AuthEndings[2] == "/auth/refresh";
    assert AuthEndings[3] == "/auth/logout" && AuthEndings[4] == "/password/forgot" && AuthEndings[5] == "/password/reset";
    IsAuthPath(p)
  }

  /**
   * The match ignores case: a URL whose pathname differs from another's only
   * in letter case is an auth endpoint exactly when the other one is.
   */
  lemma AuthEndpointIgnoresCase(u: Option<string>, v: Option<string>, resolve: UrlParser)
    requires resolve(Str(u)).Some? && resolve(Str(v)).Some? && u.Some? && v.Some?
    requires ToLower(resolve(Str(u)).value.pathname) == ToLower(resolve(Str(v)).value.pathname)
    ensures IsAuthEndpointUrl(u, resolve) <==> IsAuthEndpointUrl(v, resolve)
  {
  }

  // ---------------------------------------------------------------- requests

  /** The fields of an axios request config the interceptors use. */
  datatype Config = Config(url: Option<string>, isRetry: bool, authorization: Option<string>)

  /** A rejected request: `status` is None when there is no response; `config` may be missing. */
  datatype HttpError = HttpError(status: Option<int>, config: Option<Config>)

  /** The request interceptor: attach the stored bearer token and normalise the URL. */
  function PrepareRequest(storage: map<string, string>, c: Config): (r: Config)
    ensures r.isRetry == c.isRetry
    ensures r.authorization == (if Truthy(ApiGetToken(storage)) then Some(Bearer(ApiGetToken(storage).value))
                                else c.authorization)
    ensures r.url == CleanRelativeUrl(c.url)
  {
    var t := ApiGetToken(storage);
    Config(CleanRelativeUrl(c.url), c.isRetry, if Truthy(t) then Some(Bearer(t.value)) else c.authorization)
  }

  datatype Decision = PassThrough | RefreshThenRetry

  /** Whether the response interceptor rejects an error untouched or goes through a refresh. */
  function Decide(e: HttpError, resolve: UrlParser): (r: Decision)
    ensures e.status != Some(401) ==> r == PassThrough
    ensures e.config.Some? && e.config.value.isRetry ==> r == PassThrough
    ensures e.config.Some? && IsAuthEndpointUrl(e.config.value.url, resolve) ==> r == PassThrough
  {
    if e.status.None? || e.config.None? then PassThrough
    else if e.status.value != 401 || e.config.value.isRetry
            || IsAuthEndpointUrl(e.config.value.url, resolve) then PassThrough
    else RefreshThenRetry
  }

  /** A refresh is attempted exactly for a first 401 on a request that is not an auth endpoint. */
  lemma DecideRefreshes(e: HttpError, resolve: UrlParser)
    ensures Decide(e, resolve) == RefreshThenRetry <==>
            e.status == Some(401) && e.config.Some? && !e.config.value.isRetry
            && !IsAuthEndpointUrl(e.config.value.url, resolve)
  {
  }

  /** The replay of a request after a successful refresh: marked, with the new bearer. */
  function Replay(c: Config, token: Option<string>): (r: Config)
    ensures r.isRetry && r.url == c.url
    ensures Truthy(token) ==> r.authorization == Some(Bearer(token.value))
  {
    Config(c.url, true, if Truthy(token) then Some(Bearer(token.value)) else c.authorization)
  }

  /** A replayed request that fails again, with a 401 or anything else, is rejected untouched: one retry at most. */
  lemma ReplayIsNotRetried(c: Config, token: Option<string>, status: Option<int>, resolve: UrlParser)
    ensures Decide(HttpError(status, Some(Replay(c, token))), resolve) == PassThrough
  {
  }

  /** The refresh token a refresh reply carries for api.js: top-level, then nested. */
  function ApiRefreshTokenOf(d: AuthReply): (r: Option<string>)
    ensures Truthy(d.refreshToken) ==> r == d.refreshToken
    ensures !Truthy(d.refreshToken) && d.tokens.Some? && Truthy(d.tokens.value.refreshToken) ==>
              r == d.tokens.value.refreshToken
    ensures !Truthy(d.refreshToken) && !(d.tokens.Some? && Truthy(d.tokens.value.refreshToken)) ==> r == None
  {
    var nested := if d.tokens.Some? then d.tokens.value.refreshToken else None;
    var t := Or(d.refreshToken, nested);
    if Truthy(t) then t else None
  }

  /** How the refresh request settled: it threw, or it answered with a body. */
  datatype RefreshOutcome = RefreshThrew | RefreshAnswered(data: AuthReply)

  /** Whether a settled refresh counts as a success: only an answer with an access token does. */
  predicate RefreshSucceeded(o: RefreshOutcome) {
    o.RefreshAnswered? && AccessTokenOf(o.data).Some?
  }

  /** localStorage after the refresh settles. */
  function StorageAfterRefresh(storage: map<string, string>, o: RefreshOutcome): (r: map<string, string>)
    ensures RefreshSucceeded(o) ==> ApiGetToken(r) == AccessTokenOf(o.data)
    ensures RefreshSucceeded(o) ==>
              Get(r, AccessTokenKey) == AccessTokenOf(o.data) && Get(r, TokenKey) == AccessTokenOf(o.data)
    ensures RefreshSucceeded(o) && ApiRefreshTokenOf(o.data).Some? ==>
              Get(r, RefreshTokenKey) == ApiRefreshTokenOf(o.data)
    ensures RefreshSucceeded(o) && ApiRefreshTokenOf(o.data).None? ==>
              Get(r, RefreshTokenKey) == Get(storage, RefreshTokenKey)
    ensures !RefreshSucceeded(o) ==>
              ApiGetToken(r) == None && Get(r, RefreshTokenKey) == None
    ensures !RefreshSucceeded(o) ==> Get(r, AccessTokenKey) == None && Get(r, TokenKey) == None
    ensures forall k :: k != AccessTokenKey && k != TokenKey && k != RefreshTokenKey ==> Get(r, k) == Get(storage, k)
  {
    if RefreshSucceeded(o) then
      var s := ApiStoreToken(storage, AccessTokenOf(o.data));
      var rt := ApiRefreshTokenOf(o.data);
      if rt.Some? then StoreRefreshToken(s, rt) else s
    else
      StoreRefreshToken(ApiStoreToken(storage, None), None)
  }

  /** The refresh request's body: `{ refreshToken }` when one is stored and truthy, `{}` otherwise. */
  function RefreshBody(storage: map<string, string>): (r: Option<string>)
    ensures r.None? || (Truthy(r) && r == Get(storage, RefreshTokenKey))
    ensures Truthy(Get(storage, RefreshTokenKey)) ==> r == Get(storage, RefreshTokenKey)
  {
    if Truthy(Get(storage, RefreshTokenKey)) then Get(storage, RefreshTokenKey) else None
  }

  /** `buildRefreshUrl()` before the origin is prepended: one more trailing slash goes, then the refresh path. */
  function RefreshPath(base: string): (r: string)
    ensures EndsWith(r, "/auth/refresh")
    ensures !EndsWith(base, "/") ==> r == base + "/auth/refresh"
  {
    (if EndsWith(base, "/") then base[..|base| - 1] else base) + "/auth/refresh"
  }

  /** A request parked on the shared refresh: the original error and the config to replay. */
  datatype Waiter = Waiter(error: HttpError, config: Config)

  /** How a parked request ends: replayed once, or rejected with its original error. */
  datatype Resumption = Replayed(config: Config) | Rejected(error: HttpError)

  function Resume(w: Waiter, ok: bool, token: Option<string>): Resumption {
    if ok then Replayed(Replay(w.config, token)) else Rejected(w.error)
  }

  /** `setAuthTokens`: None for `refreshToken` stands for undefined, Some(None) for null. */
  function StorageAfterSetAuthTokens(storage: map<string, string>, accessToken: Option<string>,
                                     token: Option<string>, refreshToken: Option<Option<string>>)
    : (r: map<string, string>)
    ensures ApiGetToken(r) == (if Truthy(Or(accessToken, token)) then Or(accessToken, token) else None)
    ensures refreshToken.None? ==> Get(r, RefreshTokenKey) == Get(storage, RefreshTokenKey)
    ensures refreshToken.Some? ==>
              Get(r, RefreshTokenKey) == (if Truthy(refreshToken.value) then refreshToken.value else None)
  {
    var s := ApiStoreToken(storage, Or(accessToken, token));
    if refreshToken.Some? then StoreRefreshToken(s, refreshToken.value) else s
  }

  /**
   * The axios instance's state: the shared browser session, the single
   * refresh slot `refreshInFlight`, and the requests parked on it.
   */
  class ApiClient {
    const browser: Browser
    /** The slot: the index, in `refreshesSent`, of the outstanding refresh. */
    var refreshInFlight: Option<nat>
    /** Every refresh request sent, with the refresh token its body carried. */
    var refreshesSent: seq<Option<string>>
    /** The 401s parked on the outstanding refresh, in arrival order. */
    var waiting: seq<Waiter>
    /** How many refreshes have settled. */
    ghost var settled: nat

    /** At most one refresh is outstanding, it is the last one sent, and requests wait only on it. */
    ghost predicate Valid()
      reads this
    {
      (refreshInFlight.None? <==> waiting == []) &&
      (refreshInFlight.Some? ==> refreshInFlight.value + 1 == |refreshesSent|) &&
      |refreshesSent| == settled + (if refreshInFlight.Some? then 1 else 0)
    }

    /** Module load: `const boot = getToken(); if (boot) setToken(boot);`. */
    constructor (b: Browser)
      modifies b
      ensures Valid() && browser == b
      ensures refreshInFlight == None && refreshesSent == [] && waiting == []
      ensures b.storage == (if Truthy(ApiGetToken(old(b.storage)))
                            then ApiStoreToken(old(b.storage), ApiGetToken(old(b.storage)))
                            else old(b.storage))
      ensures b.authHeader == (if Truthy(ApiGetToken(old(b.storage)))
                               then HeaderFor(ApiGetToken(old(b.storage))) else old(b.authHeader))
    {
      browser := b;
      refreshInFlight := None;
      refreshesSent := [];
      waiting := [];
      settled := 0;
      new;
      var boot := ApiGetToken(b.storage);
      if Truthy(boot) {
        b.storage := ApiStoreToken(b.storage, boot);
        b.authHeader := HeaderFor(boot);
      }
    }

    /** `setToken(t)`: both keys and the default header follow `t`. */
    method SetToken(t: Option<string>)
      modifies browser
      ensures browser.storage == ApiStoreToken(old(browser.storage), t)
      ensures browser.authHeader == HeaderFor(t)
    {
      browser.storage := ApiStoreToken(browser.storage, t);
      browser.authHeader := HeaderFor(t);
    }

    /** `setAuthTokens({ accessToken, token, refreshToken })`. */
    method SetAuthTokens(accessToken: Option<string>, token: Option<string>,
                         refreshToken: Option<Option<string>>)
      modifies browser
      ensures browser.storage == StorageAfterSetAuthTokens(old(browser.storage), accessToken, token, refreshToken)
      ensures browser.authHeader == HeaderFor(Or(accessToken, token))
    {
      SetToken(Or(accessToken, token));
      if refreshToken.Some? {
        browser.storage := StoreRefreshToken(browser.storage, refreshToken.value);
      }
    }

    /** `clearAuthTokens()`: no token of either kind, and no header. */
    method ClearAuthTokens()
      modifies browser
      ensures ApiGetToken(browser.storage) == None && Get(browser.storage, RefreshTokenKey) == None
      ensures browser.authHeader == None
      ensures forall k :: k != AccessTokenKey && k != TokenKey && k != RefreshTokenKey ==>
                Get(browser.storage, k) == Get(old(browser.storage), k)
    {
      SetToken(None);
      browser.storage := StoreRefreshToken(browser.storage, None);
    }

    /**
     * The response interceptor's error branch, up to the point where the
     * request waits. A pass-through error is rejected at once; a first 401
     * takes the empty slot and sends one refresh; a 401 that finds the slot
     * taken joins the refresh already under way.
     */
    method OnResponseError(e: HttpError, resolve: UrlParser) returns (rejected: bool)
      requires Valid()
      modifies this
      ensures Valid()
      ensures rejected <==> Decide(e, resolve) == PassThrough
      ensures rejected ==> refreshInFlight == old(refreshInFlight) && refreshesSent == old(refreshesSent)
                           && waiting == old(waiting)
      ensures !rejected ==> waiting == old(waiting) + [Waiter(e, e.config.value)]
      ensures !rejected && old(refreshInFlight).None? ==>
                refreshesSent == old(refreshesSent) + [RefreshBody(browser.storage)]
      ensures !rejected && old(refreshInFlight).Some? ==>
                refreshesSent == old(refreshesSent) && refreshInFlight == old(refreshInFlight)
    {
      if Decide(e, resolve) == PassThrough {
        return true;
      }
      if refreshInFlight.None? {
        refreshesSent := refreshesSent + [RefreshBody(browser.storage)];
        refreshInFlight := Some(|refreshesSent| - 1);
      }
      waiting := waiting + [Waiter(e, e.config.value)];
      rejected := false;
    }

    /**
     * The outstanding refresh settles: the tokens are stored (or both
     * cleared), the slot is emptied, and every parked request resumes in
     * order, replayed once on success and rejected with its own error
     * otherwise.
     */
    method SettleRefresh(o: RefreshOutcome) returns (resumed: seq<Resumption>)
      requires Valid() && refreshInFlight.Some?
      modifies this, browser
      ensures Valid()
      ensures refreshInFlight == None && waiting == [] && refreshesSent == old(refreshesSent)
      ensures browser.storage == StorageAfterRefresh(old(browser.storage), o)
      ensures browser.authHeader == (if RefreshSucceeded(o) then HeaderFor(AccessTokenOf(o.data)) else None)
      ensures |resumed| == |old(waiting)|
      ensures forall i :: 0 <= i < |resumed| ==>
                resumed[i] == Resume(old(waiting)[i], RefreshSucceeded(o), ApiGetToken(browser.storage))
    {
      var ok := RefreshSucceeded(o);
      if ok {
        SetToken(AccessTokenOf(o.data));
        var rt := ApiRefreshTokenOf(o.data);
        if rt.Some? {
          browser.storage := StoreRefreshToken(browser.storage, rt);
        }
      } else {
        SetToken(None);
        browser.storage := StoreRefreshToken(browser.storage, None);
      }
      refreshInFlight := None;
      settled := settled + 1;
      var token := ApiGetToken(browser.storage);
      var parked := waiting;
      resumed := seq(|parked|, i requires 0 <= i < |parked| => Resume(parked[i], ok, token));
      waiting := [];
    }
  }

  /** Three requests fail with 401 together: one refresh is sent and all three are replayed with its token. */
  method ConcurrentUnauthorized(b: Browser, c1: Config, c2: Config, c3: Config, resolve: UrlParser, newToken: string)
    returns (refreshes: nat, resumed: seq<Resumption>)
    requires !c1.isRetry && !c2.isRetry && !c3.isRetry
    requires !IsAuthEndpointUrl(c1.url, resolve) && !IsAuthEndpointUrl(c2.url, resolve)
             && !IsAuthEndpointUrl(c3.url, resolve)
    requires newToken != ""
    modifies b
    ensures refreshes == 1
    ensures resumed == [Replayed(Replay(c1, Some(newToken))), Replayed(Replay(c2, Some(newToken))),
                        Replayed(Replay(c3, Some(newToken)))]
  {
    var api := new ApiClient(b);
    var r1 := api.OnResponseError(HttpError(Some(401), Some(c1)), resolve);
    var r2 := api.OnResponseError(HttpError(Some(401), Some(c2)), resolve);
    var r3 := api.OnResponseError(HttpError(Some(401), Some(c3)), resolve);
    refreshes := |api.refreshesSent|;
    var reply := AuthReply(Some(newToken), None, None, None, None);
    resumed := api.SettleRefresh(RefreshAnswered(reply));
  }
}
